/**
 * The assistant chat endpoint: a user's messages go into their first active
 * conversation (created on first use), each followed by a generated answer;
 * reading the chat returns that conversation's messages in insertion order.
 */
module ChatViews {
  import opened Wrappers

  datatype Conversacion = Conversacion(id: int, idUsuario: int, activa: bool)

  datatype Mensaje = Mensaje(idConversacion: int, rol: string, mensaje: string)

  const RolUsuario := "usuario"
  const RolAsistente := "asistente"
  const ResponsePrefix := "Respuesta generada para: "
  const EmptyMessage := "El mensaje no puede estar vacío."

  // ---------------------------------------------------------------- the generated answer

  /** The placeholder answer: a fixed prefix followed by the user's text, which can be read back from it. */
  function GenerarRespuesta(mensajeUsuario: string): (r: string)
    ensures |r| == |ResponsePrefix| + |mensajeUsuario|
    ensures r[..|ResponsePrefix|] == ResponsePrefix
    ensures r[|ResponsePrefix|..] == mensajeUsuario
  {
    ResponsePrefix + mensajeUsuario
  }

  // ---------------------------------------------------------------- blank messages

  /** Python's whitespace: the characters `str.isspace` accepts, which `str.strip()` removes at both ends. */
  predicate IsSpace(c: char) {
    || c == ' ' || ('\t' <= c <= '\r') || ('\U{1c}' <= c <= '\U{1f}') || c == '\U{85}' || c == '\U{a0}'
    || c == '\U{1680}' || ('\U{2000}' <= c <= '\U{200a}') || c == '\U{2028}' || c == '\U{2029}'
    || c == '\U{202f}' || c == '\U{205f}' || c == '\U{3000}'
  }

  predicate AllSpace(s: string) {
    forall i :: 0 <= i < |s| ==> IsSpace(s[i])
  }

  /** Drop leading whitespace: what is removed is all whitespace, and what remains starts with a non-space. */
  function TrimStart(s: string): (r: string)
    ensures |r| <= |s| && r == s[|s| - |r|..]
    ensures AllSpace(s[..|s| - |r|])
    ensures r == [] || !IsSpace(r[0])
  {
    if |s| > 0 && IsSpace(s[0]) then
      var r := TrimStart(s[1..]);
      assert s[..|s| - |r|] == [s[0]] + s[1..][..|s| - 1 - |r|];
      r
    else
      s
  }

  /** Drop trailing whitespace: what is removed is all whitespace, and what remains ends with a non-space. */
  function TrimEnd(s: string): (r: string)
    ensures |r| <= |s| && r == s[..|r|]
    ensures AllSpace(s[|r|..])
    ensures r == [] || !IsSpace(r[|r| - 1])
  {
    if |s| > 0 && IsSpace(s[|s| - 1]) then
      var r := TrimEnd(s[..|s| - 1]);
      assert s[|r|..] == s[..|s| - 1][|r|..] + [s[|s| - 1]];
      r
    else
      s
  }

  /** `str.strip()` with no arguments. */
  function Strip(s: string): string {
    TrimEnd(TrimStart(s))
  }

  /** A message strips to the empty string exactly when it is made of whitespace only (the empty message included). */
  lemma StripEmptyIffAllSpace(s: string)
    ensures Strip(s) == [] <==> AllSpace(s)
  {
    var t := TrimStart(s);
    assert s == s[..|s| - |t|] + t;
    if t != [] {
      assert !IsSpace(t[0]);
      assert TrimEnd(t) != [] by {
        assert t[0..] == t;
      }
      assert !IsSpace(s[|s| - |t|]);
    }
  }

  // ---------------------------------------------------------------- queries

  /** The first active conversation of a user, in table order. */
  function FirstActiveConversation(convs: seq<Conversacion>, user: int): (c: Option<Conversacion>)
    ensures c.Some? ==>
      exists i :: && 0 <= i < |convs| && convs[i] == c.value && c.value.idUsuario == user && c.value.activa
                  && forall k :: 0 <= k < i ==> !(convs[k].idUsuario == user && convs[k].activa)
    ensures c.None? ==> forall k :: 0 <= k < |convs| ==> !(convs[k].idUsuario == user && convs[k].activa)
  {
    if |convs| == 0 then None
    else if convs[0].idUsuario == user && convs[0].activa then Some(convs[0])
    else
      var rest := FirstActiveConversation(convs[1..], user);
      assert rest.Some? ==> exists i :: (1 <= i < |convs| && convs[i] == rest.value
        && forall k :: 0 <= k < i ==> !(convs[k].idUsuario == user && convs[k].activa)) by {
        if rest.Some? {
          var i :| && 0 <= i < |convs[1..]| && convs[1..][i] == rest.value
                   && forall k :: 0 <= k < i ==> !(convs[1..][k].idUsuario == user && convs[1..][k].activa);
          assert convs[i + 1] == rest.value;
          forall k | 0 <= k < i + 1
            ensures !(convs[k].idUsuario == user && convs[k].activa)
          {
            if k > 0 {
              assert convs[k] == convs[1..][k - 1];
            }
          }
        }
      }
      rest
  }

  /** The messages of one conversation, in insertion order. */
  function MessagesOf(mensajes: seq<Mensaje>, idConversacion: int): (r: seq<Mensaje>)
    ensures |r| <= |mensajes|
    ensures forall i :: 0 <= i < |r| ==> r[i].idConversacion == idConversacion
  {
    if |mensajes| == 0 then []
    else
      var last := mensajes[|mensajes| - 1];
      MessagesOf(mensajes[..|mensajes| - 1], idConversacion) + (if last.idConversacion == idConversacion then [last] else [])
  }

  /** Selecting the messages of a conversation distributes over appending rows. */
  lemma {:induction false} MessagesOfAppend(mensajes: seq<Mensaje>, extra: seq<Mensaje>, idConversacion: int)
    ensures MessagesOf(mensajes + extra, idConversacion) == MessagesOf(mensajes, idConversacion) + MessagesOf(extra, idConversacion)
    decreases |extra|
  {
    if |extra| > 0 {
      var front := extra[..|extra| - 1];
      assert (mensajes + extra)[..|mensajes + extra| - 1] == mensajes + front;
      MessagesOfAppend(mensajes, front, idConversacion);
    } else {
      assert mensajes + extra == mensajes;
    }
  }

  /** A conversation no message refers to has no messages. */
  lemma {:induction false} MessagesOfUnused(mensajes: seq<Mensaje>, idConversacion: int)
    requires forall i :: 0 <= i < |mensajes| ==> mensajes[i].idConversacion != idConversacion
    ensures MessagesOf(mensajes, idConversacion) == []
    decreases |mensajes|
  {
    if |mensajes| > 0 {
      MessagesOfUnused(mensajes[..|mensajes| - 1], idConversacion);
    }
  }

  /** Appending conversations never changes a user's first active one, if there was one; otherwise the search goes on in the new rows. */
  lemma {:induction false} FirstActiveConversationAppend(convs: seq<Conversacion>, extra: seq<Conversacion>, user: int)
    ensures FirstActiveConversation(convs + extra, user) ==
      if FirstActiveConversation(convs, user).Some? then FirstActiveConversation(convs, user)
      else FirstActiveConversation(extra, user)
    decreases |convs|
  {
    if |convs| > 0 {
      assert (convs + extra)[1..] == convs[1..] + extra;
      FirstActiveConversationAppend(convs[1..], extra, user);
    } else {
      assert convs + extra == extra;
    }
  }

  // ---------------------------------------------------------------- replies

  /** One entry of the reply's message list (the timestamp is not modelled). */
  datatype MessageView = MessageView(rol: string, mensaje: string)

  /** The chat as the endpoint shows it: the active conversation's id (or none) and its messages. */
  datatype ChatView = ChatView(conversacionId: Option<int>, mensajes: seq<MessageView>)

  datatype PostReply =
    | PostCreated(view: ChatView)
    | PostRejected(error: string)

  function PostStatus(r: PostReply): int {
    if r.PostCreated? then 201 else 400
  }

  function Views(ms: seq<Mensaje>): (vs: seq<MessageView>)
    ensures |vs| == |ms|
    ensures forall i :: 0 <= i < |ms| ==> vs[i] == MessageView(ms[i].rol, ms[i].mensaje)
  {
    if |ms| == 0 then [] else Views(ms[..|ms| - 1]) + [MessageView(ms[|ms| - 1].rol, ms[|ms| - 1].mensaje)]
  }

  /**
   * Reading the chat: no id and no messages without an active conversation;
   * otherwise the first active conversation and all its messages in order.
   */
  function Get(convs: seq<Conversacion>, mensajes: seq<Mensaje>, user: int): (v: ChatView)
    ensures v.conversacionId.None? <==> forall k :: 0 <= k < |convs| ==> !(convs[k].idUsuario == user && convs[k].activa)
    ensures v.conversacionId.None? ==> v.mensajes == []
    ensures v.conversacionId.Some? ==>
      && FirstActiveConversation(convs, user) == Some(Conversacion(v.conversacionId.value, user, true))
      && |v.mensajes| == |MessagesOf(mensajes, v.conversacionId.value)|
      && forall i :: 0 <= i < |v.mensajes| ==>
           var m := MessagesOf(mensajes, v.conversacionId.value)[i];
           v.mensajes[i] == MessageView(m.rol, m.mensaje)
  {
    match FirstActiveConversation(convs, user)
    case None => ChatView(None, [])
    case Some(c) => ChatView(Some(c.id), Views(MessagesOf(mensajes, c.id)))
  }

  // ---------------------------------------------------------------- the store

  /** The two rows a post adds to a conversation: the user's message, then the generated answer. */
  function Pair(id: int, text: string): seq<Mensaje> {
    [Mensaje(id, RolUsuario, text), Mensaje(id, RolAsistente, GenerarRespuesta(text))]
  }

  /** The conversation and message tables; ids come from a counter, as the database assigns them. */
  class ChatStore {
    var conversaciones: seq<Conversacion>
    var mensajes: seq<Mensaje>
    var nextId: int

    /** Every id in use, by a conversation or by a message's conversation, is below the counter. */
    ghost predicate Valid()
      reads this
    {
      && 1 <= nextId
      && (forall i :: 0 <= i < |conversaciones| ==> conversaciones[i].id < nextId)
      && (forall i :: 0 <= i < |mensajes| ==> mensajes[i].idConversacion < nextId)
    }

    constructor ()
      ensures Valid() && conversaciones == [] && mensajes == [] && nextId == 1
    {
      conversaciones, mensajes, nextId := [], [], 1;
    }

    /**
     * Posting a message.  A missing or whitespace-only message is rejected with 400
     * and nothing changes.  Otherwise the user's first active conversation is used,
     * or exactly one new active conversation is created; the user's message and then
     * the generated answer are appended; and the reply (201) is what reading the chat
     * now returns: that conversation with one more pair of messages than before.
     */
    method Post(user: int, mensaje: Option<string>) returns (reply: PostReply)
      requires Valid()
      modifies this`conversaciones, this`mensajes, this`nextId
      ensures Valid()
      ensures var text := if mensaje.Some? then mensaje.value else "";
        AllSpace(text) ==>
          && reply == PostRejected(EmptyMessage) && PostStatus(reply) == 400
          && conversaciones == old(conversaciones) && mensajes == old(mensajes) && nextId == old(nextId)
      ensures var text := if mensaje.Some? then mensaje.value else "";
        var found := FirstActiveConversation(old(conversaciones), user);
        var id := if found.Some? then found.value.id else old(nextId);
        !AllSpace(text) ==>
          && conversaciones == old(conversaciones) + (if found.Some? then [] else [Conversacion(id, user, true)])
          && mensajes == old(mensajes) + Pair(id, text)
          && MessagesOf(mensajes, id) == MessagesOf(old(mensajes), id) + Pair(id, text)
          && (found.None? ==> MessagesOf(mensajes, id) == Pair(id, text))
          && reply == PostCreated(Get(conversaciones, mensajes, user)) && PostStatus(reply) == 201
          && reply.view.conversacionId == Some(id)
    {
      var text := if mensaje.Some? then mensaje.value else "";
      StripEmptyIffAllSpace(text);
      if Strip(text) == [] {
        return PostRejected(EmptyMessage);
      }
      var id := ActiveConversation(user);
      AppendPair(id, text);
      reply := PostCreated(ChatView(Some(id), Views(MessagesOf(mensajes, id))));
    }

    /**
     * The conversation a post goes to: the user's first active one, or a new active
     * one with a fresh id, which then has no messages; either way it is afterwards
     * the user's first active conversation.
     */
    method ActiveConversation(user: int) returns (id: int)
      requires Valid()
      modifies this`conversaciones, this`nextId
      ensures Valid() && id < nextId
      ensures var found := FirstActiveConversation(old(conversaciones), user);
        && id == (if found.Some? then found.value.id else old(nextId))
        && conversaciones == old(conversaciones) + (if found.Some? then [] else [Conversacion(id, user, true)])
        && nextId == (if found.Some? then old(nextId) else old(nextId) + 1)
        && (found.None? ==> MessagesOf(mensajes, id) == [])
      ensures FirstActiveConversation(conversaciones, user) == Some(Conversacion(id, user, true))
    {
      var conversacion := FirstActiveConversation(conversaciones, user);
      if conversacion.Some? {
        return conversacion.value.id;
      }
      var nueva := Conversacion(nextId, user, true);
      FirstActiveConversationAppend(conversaciones, [nueva], user);
      MessagesOfUnused(mensajes, nextId);
      conversaciones := conversaciones + [nueva];
      id := nextId;
      nextId := nextId + 1;
    }

    /** Store the user's message and then the generated answer in a conversation. */
    method AppendPair(id: int, text: string)
      requires Valid() && id < nextId
      modifies this`mensajes
      ensures Valid()
      ensures mensajes == old(mensajes) + Pair(id, text)
      ensures MessagesOf(mensajes, id) == MessagesOf(old(mensajes), id) + Pair(id, text)
    {
      MessagesOfAppend(mensajes, Pair(id, text), id);
      mensajes := mensajes + Pair(id, text);
    }
  }

  /** A whitespace-only message is rejected and changes nothing. */
  method BlankPostScenario() returns (reply: PostReply, mensajes: seq<Mensaje>)
    ensures reply == PostRejected(EmptyMessage) && mensajes == []
  {
    var store := new ChatStore();
    assert IsSpace(" \n"[0]) && IsSpace(" \n"[1]);
    assert AllSpace(" \n");
    reply := store.Post(7, Some(" \n"));
    mensajes := store.mensajes;
  }

  /** A first message opens conversation 1, holding the message and then its answer. */
  method FirstPostScenario() returns (reply: PostReply, conversaciones: seq<Conversacion>, mensajes: seq<Mensaje>)
    ensures reply.PostCreated? && reply.view.conversacionId == Some(1)
    ensures conversaciones == [Conversacion(1, 7, true)]
    ensures mensajes == [Mensaje(1, RolUsuario, "hola"), Mensaje(1, RolAsistente, ResponsePrefix + "hola")]
  {
    var store := new ChatStore();
    assert !IsSpace("hola"[0]);
    assert !AllSpace("hola");
    assert FirstActiveConversation([], 7) == None;
    reply := store.Post(7, Some("hola"));
    conversaciones, mensajes := store.conversaciones, store.mensajes;
  }
}
