# MacroMate core, modelled in Dafny

MacroMate is a nutrition-tracking web application: a Django backend that stores
users, their physical profiles and their macronutrient targets, and a Next.js
frontend whose registration wizard and login page talk to it. This project models
the decision logic of both halves and proves what each part promises:

- `nutrition_utils.dfy` (`NutritionUtils`): the calculation pipeline. It covers age
  from the birth date, BMR by Mifflin-St Jeor, TDEE via the activity multiplier, the
  goal-based calorie adjustment, and the split of calories into grams of protein,
  fat and carbohydrate.
- `user_models.dfy` (`UserModels`): the profile choice sets and defaults, and the
  profile's own helpers for age, BMR and the activity factor. These answer `None`
  where the pipeline substitutes defaults. Lemmas say where the two versions agree
  and where they disagree. It also models the profile save that stores BMR and TDEE,
  and the user manager (`create_user`, `create_superuser`) over a table of users.
- `user_serializers.dfy` (`UserSerializers`): the registration, login,
  password-change and profile-update validation rules, in the order the framework
  runs them.
- `session.dfy` (`Session`): the browser-side policy for storing login tokens,
  shared by both pages.
- `registration_page.dfy` (`RegistrationPage`): the three-step wizard. It covers
  the step machine, the per-step checks, the error map, and the
  register → login → profile-update submission.
- `login_page.dfy` (`LoginPage`): the login form and its submit handler.
- `nutrition_views.dfy` (`NutritionViews`): the endpoints that calculate and store
  macros and read back the current ones, over in-memory tables.
- `chat_views.dfy` (`ChatViews`): the assistant chat endpoint over in-memory
  conversation and message tables.
- `wrappers.dfy` (`Wrappers`): `Option` and `Result`.

Modelling conventions:

- Arithmetic is over `real`, and each value is the exact value before the
  source's rounding.
- The current date is a parameter.
- Framework calls are function parameters: `authenticate`, `check_password`,
  `normalize_email`, `set_password`, the email format check and the password validators.
- The HTTP replies a page receives are parameters of its handler. Each reply is
  ok, a rejection with its body, or an exception.
- Everything a handler does to the outside world is recorded in fields of the
  page object: the requests it sends, the local-storage writes, the toasts and the
  scheduled navigation.

The three `UsuarioManager` checks (empty email, duplicate email, duplicate user
name) and the profile-save rule are stated on the classes that own the tables.

The read endpoint's use of the first active record is stated as two lemmas:
`ReadAfterFirstCalculation` and `ReadStaysOnOldest`. Calculating only ever appends
records and never deactivates one. So once a profile has an active record, the
read endpoint keeps returning that oldest record, whatever is calculated later.

## Model

| member | source | states |
|---|---|---|
| NutritionUtils.Age | backend/nutricion/utils.py:23-32 | without a birth date the age is 30; otherwise the age-th anniversary has been reached on `today` and the next one has not |
| NutritionUtils.AgeIsUnique | backend/nutricion/utils.py:26-31 | the completed-years characterisation determines the age uniquely, so the year-difference-minus-one formula is the only correct one |
| NutritionUtils.BmrGenderOffsets | backend/nutricion/utils.py:13-19 | for equal measures, men are 166 kcal above women and 83 kcal above any other gender; other genders are 83 above women |
| NutritionUtils.BmrMissingMeasuresCountAsZero | backend/nutricion/utils.py:9-10 | a missing weight or height gives the same BMR as a zero one |
| NutritionUtils.BmrSlopes | backend/nutricion/utils.py:13-20 | each extra kilogram adds 10 kcal and each extra centimetre adds 6.25 kcal to the BMR |
| NutritionUtils.BmrReferenceValues | backend/nutricion/tests.py:29-35 | 80 kg, 180 cm, 30 years, male gives 1780; 60 kg, 165 cm, 25 years, female gives 1345.25 |
| NutritionUtils.ActivityFactor | backend/nutricion/utils.py:38-46 | the multiplier lies in [1.2, 1.9], and an unknown level gets 1.2 |
| NutritionUtils.ActivityFactorIncreasing | backend/nutricion/utils.py:38-44 | a more active level has a strictly larger multiplier |
| NutritionUtils.Tdee | backend/nutricion/utils.py:34-47 | TDEE is the BMR times the level's multiplier, so it lies between 1.2 and 1.9 times a non-negative BMR; an unknown level gives 1.2 times the BMR |
| NutritionUtils.TdeeReferenceValue | backend/nutricion/tests.py:37-40 | 1780 kcal at the sedentary level gives 2136 kcal |
| NutritionUtils.AdjustCalories | backend/nutricion/utils.py:49-61 | weight loss gives exactly 0.8 times the TDEE and muscle gain exactly 1.1 times, for any TDEE; any other goal keeps the TDEE; so the result lies between 0.8 and 1.1 times a non-negative TDEE, and between 1.1 and 0.8 times a negative one |
| NutritionUtils.AdjustCaloriesOrdersGoals | backend/nutricion/utils.py:55-59 | for a positive TDEE, loss gives less than maintenance, which gives less than gain; the factors are exactly 0.8 and 1.1 |
| NutritionUtils.AdjustCaloriesReferenceValue | backend/nutricion/tests.py:42-47 | 2500 kcal with the weight-loss goal gives 2000 kcal |
| NutritionUtils.MacroRatios | backend/nutricion/utils.py:69-80 | for every goal the three shares are positive and sum to 1 |
| NutritionUtils.DistributeMacros | backend/nutricion/utils.py:63-91 | the grams of each macronutrient give back its share of the calories at 4/9/4 kcal per gram; together they give back all the calories; they are non-negative for non-negative calories |
| NutritionUtils.DistributeMacrosReferenceValue | backend/nutricion/tests.py:49-56 | 3000 kcal for muscle gain gives 225 g protein, 337.5 g carbohydrate and 250/3 g fat |
| NutritionUtils.MacrosForProfile | backend/nutricion/utils.py:93-123 | the report has an error exactly when weight or height is missing or zero; on error every number is 0 and there is no message; otherwise it chains BMR → TDEE → adjusted calories → grams and carries the success message |
| NutritionUtils.NegativeEnergyReachable | backend/nutricion/utils.py:93-123 | nothing bounds the measures from below: 1 kg, 1 cm, 100 years, male gives a successful report with BMR −478.75 and negative TDEE and calories |
| NutritionUtils.ReportIsEnergyConsistent | backend/nutricion/utils.py:109-123 | a successful report's grams add back up to its daily calories |
| UserModels.CalcularEdad | backend/usuarios/models.py:95-99 | no age exactly when there is no birth date; otherwise the same age as the pipeline's completed-years age |
| UserModels.CalcularBmr | backend/usuarios/models.py:101-109 | a BMR exists exactly when weight, height, birth date and gender are all present and truthy; a male BMR equals the pipeline's, and any other gender is 166 below the male value |
| UserModels.BmrAgreesForListedGenders | backend/usuarios/models.py:105-108 | for the two listed genders, and with all inputs present, the profile helper and the pipeline compute the same BMR |
| UserModels.BmrDisagreesForOtherGenders | backend/usuarios/models.py:105-108 | for any unlisted gender the profile helper is 83 kcal below the pipeline |
| UserModels.MissingBirthDateDisagrees | backend/usuarios/models.py:95-103 | without a birth date the profile helpers give no age and no BMR, while the pipeline assumes age 30 |
| UserModels.FactorActividad | backend/usuarios/models.py:111-119 | the multiplier lies in [1.2, 1.9], equals the pipeline's table, and an unknown level gets 1.2 |
| UserModels.SavedEnergy | backend/usuarios/models.py:121-126 | BMR and TDEE stay as they were when the computed BMR is missing or zero; otherwise they become that BMR and the BMR times the multiplier, so TDEE lies between 1.2 and 1.9 times a positive BMR |
| UserModels.Perfil.constructor | backend/usuarios/models.py:75-86 | a new profile has blank texts, no numbers or dates, and the default level (sedentario) and goal (mantenimiento), which belong to their choice sets |
| UserModels.Perfil.Save | backend/usuarios/models.py:121-126 | saving writes `bmr` and `tdee` to the values `SavedEnergy` gives and sets the update timestamp (an `auto_now` column) to the moment of saving; nothing else changes |
| UserModels.Perfil.SaveAsWritten | backend/usuarios/models.py:55-93 | the save a profile actually gets, since the class does not inherit the module-level helper: only the update timestamp changes |
| UserModels.StaleEnergyExample | backend/usuarios/models.py:121-126 | a complete profile (80 kg, 180 cm, 30 years, male) saved as written has no BMR; saved with the helper it has 1780 |
| UserModels.UsuarioManager.CreateUser | backend/usuarios/models.py:8-18 | an empty email is refused; a duplicate normalised email or user name is refused; nothing is stored on refusal; otherwise one active, non-staff user is appended with the normalised email and the hashed password, and the table keeps distinct ids, emails and names |
| UserModels.UsuarioManager.CreateSuperuser | backend/usuarios/models.py:20-30 | an empty email, a duplicate normalised email and a duplicate user name are refused as in `CreateUser`, storing nothing; otherwise exactly one active user with the next id, the admin, staff and superuser flags set, the normalised email and the hashed password is appended |
| UserSerializers.ValidateEmail | backend/usuarios/serializers.py:20-23 | the email passes exactly when no user has it; otherwise the error is on the `email` field |
| UserSerializers.ValidateRegistration | backend/usuarios/serializers.py:15-18 | the data passes unchanged exactly when the password equals its confirmation; otherwise a non-field error |
| UserSerializers.RegistrationIsValid | backend/usuarios/serializers.py:7-23 | registration passes exactly when the user name is non-blank, at most 50 characters and new, the email is non-blank, at most 100 characters, well-formed and new, both passwords are non-blank and they match; a mismatch is reported alone, and only when every field passed |
| UserSerializers.FieldErrorsEmpty | backend/usuarios/models.py:34-35 | a registration has no field error exactly when each field passes its blank, length, uniqueness and format checks |
| UserSerializers.BlankFieldsReported | backend/usuarios/serializers.py:8-13 | each blank field of a registration is reported with the blank message on that field |
| UserSerializers.UniquenessAndLengthReported | backend/usuarios/models.py:34-35 | a taken or over-long user name and a taken email are reported with the framework's messages on their fields, whatever else is wrong |
| UserSerializers.EmailInUseNeverReported | backend/usuarios/serializers.py:20-23 | the message of `validate_email` never appears: the email column's uniqueness validator runs first and refuses every email it would refuse |
| UserSerializers.Create | backend/usuarios/serializers.py:25-28 | creation succeeds with the next id exactly when the normalised email and the user name are new (duplicates give the manager's integrity errors); the created user gets the user name, the normalised email and the hashed password, never the confirmation, and no staff flags |
| UserSerializers.ValidateLogin | backend/usuarios/serializers.py:34-43 | the object-level `validate` alone: with both fields present, login fails exactly when authentication fails and otherwise attaches the authenticated user; with a field blank the data passes without a user |
| UserSerializers.LoginIsValid | backend/usuarios/serializers.py:30-43 | with the field checks first (email non-blank and well-formed, password non-blank), a login passes exactly when they pass and authentication succeeds, and then always carries the authenticated user; failed authentication gives only the invalid-credentials error; each blank or malformed field is reported on that field |
| UserSerializers.ValidateContrasenaActual | backend/usuarios/serializers.py:81-85 | the current password passes exactly when `check_password` accepts it; otherwise the error is on `contrasena_actual` |
| UserSerializers.ValidatePasswordChange | backend/usuarios/serializers.py:66-79 | passes exactly when the new password matches its confirmation and differs from the current one; a mismatch is reported on `confirmar_contrasena` before sameness is reported on `nueva_contrasena` |
| UserSerializers.PasswordChangeFieldErrors | backend/usuarios/serializers.py:61-85 | there is no field error exactly when all three fields are non-blank, the current password checks and the validators raise nothing; a blank field reports only the blank message, a non-blank wrong current password the wrong-password message, and each validator message is reported on `nueva_contrasena` |
| UserSerializers.PasswordChangeIsValid | backend/usuarios/serializers.py:61-85 | a change passes exactly when the current password is non-blank and checks, the new one is non-blank and passes the validators, matches its confirmation and differs from the current one; a blank current password reports the blank message and a non-blank wrong one the wrong-password message |
| UserSerializers.WrongCurrentPasswordHidesObjectChecks | backend/usuarios/serializers.py:61-85 | with a non-blank wrong current password, the confirmation does not affect the outcome as long as it is equally blank or filled in |
| UserSerializers.ValidatedProfileData | backend/usuarios/serializers.py:45-52 | a profile payload keeps only writable profile columns, with their values |
| UserSerializers.UpdateProfileRow | backend/usuarios/serializers.py:45-52 | a profile update writes the payload's writable columns, sets `fecha_actualizacion` to the moment of saving, and never changes `id_usuario`, `bmr`, `tdee` or a column the payload leaves out |
| Session.StoreTokens | frontend/app/login/page.tsx:168-174 | the access token is always written (undefined as the text "undefined"); the refresh token is written exactly when truthy; every other entry is kept |
| RegistrationPage.StepError | frontend/app/registro/page.tsx:114-142 | only steps 1 and 2 can fail, and a failure is a general error or a password error |
| RegistrationPage.StepOneGate | frontend/app/registro/page.tsx:116-120 | step 1 passes exactly when both names are filled in; otherwise one general error |
| RegistrationPage.StepTwoGate | frontend/app/registro/page.tsx:124-141 | step 2 passes exactly when all account fields are filled and the passwords match and have at least 8 characters; a blank account field gives the general "all fields" message; a matching password under 8 characters gives the length message on the password |
| RegistrationPage.ShortPasswordRejected | frontend/app/registro/page.tsx:138-141 | a password shorter than 8 characters never passes step 2 |
| RegistrationPage.MismatchReportedFirst | frontend/app/registro/page.tsx:132-135 | with all fields filled, a mismatch is reported as a password error even when the password is also too short |
| RegistrationPage.RegistrationErrors | frontend/app/registro/page.tsx:226-243 | the error map of a failed registration has only email, password and general keys, each present exactly when the reply's value is truthy, with the string or the array's first element |
| RegistrationPage.RegistrationErrorsIgnoreOtherKeys | frontend/app/registro/page.tsx:229-243 | reply keys other than email, password and non_field_errors do not affect the error map |
| RegistrationPage.EmailTakenReply | frontend/app/registro/page.tsx:229-250 | an email error given as an array becomes the email message and sends the wizard back to step 2 |
| RegistrationPage.CollectRegistrationErrors | frontend/app/registro/page.tsx:226-243 | the map built entry by entry is `RegistrationErrors` of the reply |
| RegistrationPage.RequestsSent | frontend/app/registro/page.tsx:207-309 | registration is always sent with the email as user name; login only after registration succeeded; the profile update only after login succeeded, authorised with the stored access token and with the target weight equal to the current weight |
| RegistrationPage.SubmitErrors | frontend/app/registro/page.tsx:222-339 | no error on success; after an exception only the connection message, after a rejected login only the auto-login message; after a failed registration the server's email, password and general errors; so the map is empty exactly on success or on a rejection that names none of those keys |
| RegistrationPage.LongEmailRejectedSilently | frontend/app/registro/page.tsx:207-253 | an email of 51 to 100 characters, sent again as the user name, is refused by the server on `nombre_usuario` alone; the page reads no such key, so the submission ends without success, without a message and without leaving step 3 |
| RegistrationPage.RegistroPage.constructor | frontend/app/registro/page.tsx:32-71 | the page starts at step 1, not loading, with no errors, the default level and goal, and nothing sent |
| RegistrationPage.RegistroPage.HandleChange | frontend/app/registro/page.tsx:87-100 | only the named field changes; that field's error is blanked only when it was shown; every other error is kept |
| RegistrationPage.RegistroPage.NextStep | frontend/app/registro/page.tsx:114-147 | a failing check leaves the step and sets exactly that check's error; otherwise errors clear and the step becomes min(step+1, 3) |
| RegistrationPage.RegistroPage.PrevStep | frontend/app/registro/page.tsx:155-158 | errors clear and the step becomes max(step−1, 1), so it stays in [1, 3] |
| RegistrationPage.RegistroPage.HandleSubmit | frontend/app/registro/page.tsx:192-340 | incomplete physical data sets only a general error and sends nothing; otherwise the requests, the final errors, the step (2 when the server rejects email or password), the tokens (written only after a successful login), success and navigation to /dashboard (also when the profile update is rejected) are as specified, and loading is cleared on every exit |
| RegistrationPage.RegistroPage.Submit | frontend/app/registro/page.tsx:199-340 | with the physical data complete: the errors clear, and the requests, final errors, step, stored tokens, success flag and navigation are those of the three replies |
| RegistrationPage.RegistroPage.Register | frontend/app/registro/page.tsx:207-253 | the registration request is sent; the phase goes on exactly for an ok reply, and otherwise leaves the connection error or the server's field errors |
| RegistrationPage.RegistroPage.LogIn | frontend/app/registro/page.tsx:259-287 | the login request is sent; the tokens are stored exactly when it succeeds; a rejected login sets the auto-login message |
| RegistrationPage.RegistroPage.ShowRegistrationErrors | frontend/app/registro/page.tsx:222-253 | shows the server's field errors, returns to step 2 exactly for an email or password error, and clears loading |
| RegistrationPage.RegistroPage.UpdateProfile | frontend/app/registro/page.tsx:292-328 | the profile update is sent with the bearer token; unless it throws, success is shown and /dashboard scheduled, whatever the reply's status |
| RegistrationPage.StepOneScenario | frontend/app/registro/page.tsx:114-147 | with only the name filled step 1 stays with the names message; with the surname too the wizard reaches step 2 with no error |
| RegistrationPage.StepTwoScenario | frontend/app/registro/page.tsx:87-147 | a matching seven-character password keeps step 2 with the length message on the password; retyping the password blanks that message |
| RegistrationPage.SubmitScenario | frontend/app/registro/page.tsx:192-340 | complete data with three accepted requests stores both tokens, shows success, schedules /dashboard and leaves no error |
| LoginPage.RejectionMessage | frontend/app/login/page.tsx:157-162 | the shown text is never empty: the server's error when truthy, "Credenciales incorrectas" otherwise |
| LoginPage.ReplyToast | frontend/app/login/page.tsx:157-188 | the toast is a success exactly for an ok reply; a rejection shows its message and an exception the connection message |
| LoginPage.LoginForm.constructor | frontend/app/login/page.tsx:42-54 | the form starts with both fields empty, not loading, nothing sent or shown |
| LoginPage.LoginForm.HandleChange | frontend/app/login/page.tsx:72-77 | only the named field changes |
| LoginPage.LoginForm.HandleSubmit | frontend/app/login/page.tsx:132-194 | a blank field shows an error toast and sends, stores and schedules nothing; otherwise the credentials are sent once, tokens are stored and /paginaPrincipal is scheduled exactly for an ok reply, and loading is false afterwards |
| LoginPage.LoginScenario | frontend/app/login/page.tsx:132-194 | a blank password is refused locally without a request; the filled form is sent once and a rejection without message shows "Credenciales incorrectas" and schedules nothing |
| NutritionViews.NewRecords | backend/nutricion/views.py:24-31 | a calculation adds one active record of the profile, dated today and carrying the report's calories, protein, carbohydrate and fat, exactly when weight and height are present, and nothing otherwise |
| NutritionViews.FirstActiveFrom | backend/nutricion/views.py:54 | the index found is an active record of the profile with none before it; no index means the profile has no active record |
| NutritionViews.ObtenerMacrosActuales | backend/nutricion/views.py:48-71 | 404 exactly without a profile; the hint exactly when the profile has no active record; otherwise the values of its first active record |
| NutritionViews.ReadAfterFirstCalculation | backend/nutricion/views.py:21-65 | after a successful calculation for a profile without an active record, the read endpoint returns the new record |
| NutritionViews.ReadStaysOnOldest | backend/nutricion/views.py:21-65 | once a profile has an active record, a later calculation does not change what the read endpoint returns |
| NutritionViews.NutritionStore.CalcularMacros | backend/nutricion/views.py:12-39 | without a profile: 400 and nothing stored; otherwise the pipeline's report is returned as is and the table grows by `NewRecords` |
| ChatViews.GenerarRespuesta | backend/ia_chat/views.py:10-11 | the answer is the prefix "Respuesta generada para: " followed by the user's text, which can be read back from it |
| ChatViews.StripEmptyIffAllSpace | backend/ia_chat/views.py:37-40 | a message strips to empty exactly when it consists of whitespace only |
| ChatViews.FirstActiveConversation | backend/ia_chat/views.py:42-44 | the conversation found is the user's first active one; none found means the user has no active conversation |
| ChatViews.MessagesOfAppend | backend/ia_chat/views.py:46-60 | the messages of a conversation after appending rows are the old ones followed by the new ones of that conversation |
| ChatViews.FirstActiveConversationAppend | backend/ia_chat/views.py:42-44 | appending conversations never changes a user's existing first active conversation |
| ChatViews.Get | backend/ia_chat/views.py:16-33 | without an active conversation there is no id and no messages; otherwise the first active conversation's id and all its messages in insertion order |
| ChatViews.ChatStore.Post | backend/ia_chat/views.py:35-74 | a missing or blank message gives 400 and changes nothing; otherwise the first active conversation is reused or exactly one is created, the user's message and then the answer are appended, and the 201 reply equals what `Get` returns afterwards |
| ChatViews.ChatStore.ActiveConversation | backend/ia_chat/views.py:42-44 | reuses the user's first active conversation, or creates one with a fresh id and no messages; either way it is afterwards the user's first active conversation |
| ChatViews.ChatStore.AppendPair | backend/ia_chat/views.py:46-58 | appends the user's message and then the answer, and the conversation's messages grow by exactly that pair |
| ChatViews.BlankPostScenario | backend/ia_chat/views.py:35-40 | a whitespace-only message gets the empty-message rejection and stores nothing |
| ChatViews.FirstPostScenario | backend/ia_chat/views.py:35-74 | a user's first message opens conversation 1, which holds the message and then its generated answer |

## Findings

| source | as written | input that shows it | evidently intended | confidence | as-written member | corrected member |
|---|---|---|---|---|---|---|
| backend/usuarios/models.py:121-126 | `save` is defined at module level, so `Perfil` keeps the framework's save and never stores BMR or TDEE (and the helper's zero-argument `super()` could not run outside a class) | a profile of 80 kg, 180 cm, born 1994-01-01, male, saved on 2024-06-01: `bmr` stays empty though 1780 can be computed | `save` as a method of `Perfil` that stores BMR and TDEE before saving | high, not executed | UserModels.Perfil.SaveAsWritten, UserModels.StaleEnergyExample | UserModels.Perfil.Save |

## Left out

- Rounding: Python `round()`, the `Decimal` columns and the page's `parseFloat` are not modelled. Every value is the exact real before rounding, so the reference values of the unit tests are proved exactly.
- Dates: `date.today()` is a parameter. The `auto_now` update timestamp of a profile is the date of saving; the `auto_now_add` creation timestamps are dropped. Calendar validity of a date is not checked, as in the source.
- Browser effects: `fetch`, `res.json()`, `setTimeout`, `router.push`, `toast`, `console` and `localStorage` are recorded in fields instead of being performed. A reply body that is not JSON counts as an exception, as it does in the source.
- Exception paths: the 500 branch of `calcular_macros` (backend/nutricion/views.py:40-44) and exceptions raised by the framework callbacks are not modelled.
- Persistence: the `super().save()` call and the database's own uniqueness enforcement are not modelled. Uniqueness appears as the manager's `IntegrityError` outcomes.
- UserSerializers.RegistrationIsValid: the email format check is a parameter; a key missing from the request ("This field is required.") and the trimming of surrounding whitespace that the framework's character fields apply are not modelled, here and in `LoginIsValid` and `PasswordChangeIsValid`, so values are taken as already trimmed; the messages of one field are listed in a fixed order that the contract does not promise.
- Profile helpers: the age, BMR and activity-factor helpers of backend/usuarios/models.py:95-119 are written at module level; the model keeps them as functions of the profile's values. The module-level save is recorded under Findings.
- Login route: the login page's header comment names /dashboard. The code schedules /paginaPrincipal, and the model follows the code.
- String lengths: the password-length check counts characters (code points). JavaScript counts UTF-16 units, which differ for characters outside the Basic Multilingual Plane.
- Registration errors: for an empty array in an error reply, the model reads the first element as the empty string (undefined, which is false).
- Error reply values: only strings and arrays of strings are modelled; other JSON types in an error body are not.
- Chat timestamps: `fecha_mensaje` ordering is modelled as insertion order, and the timestamp is left out of the reply. A `mensaje` that is not a string raises in the source and is not modelled.
- Other views: the user views (backend/usuarios/views.py), the logout view, the dashboard and main pages, and the food endpoints are not part of this model.
- Framework callbacks: password validators, token minting, `authenticate`, `check_password`, `normalize_email` and `set_password` are parameters whose behaviour is not modelled.
