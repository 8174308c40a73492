/** The "new list" screen (app/criarLista.tsx). */
module CreateList {
  import opened Outcomes
  import opened Text

  /** The body of `POST /listas`. A new list holds no establishments. */
  datatype ListPayload = ListPayload(nome: string, publica: bool, estabelecimentos: seq<nat>)

  /** The alert `handleSalvar` raises, if any. */
  datatype Notice = NameRequired | ServerMessage(message: string) | CouldNotCreate

  /** The name guard: only a name with a visible character is sent. */
  function NameGiven(nome: string): (ok: bool)
    ensures ok <==> !IsBlank(nome)
  {
    TrimEmptyIffBlank(nome);
    Trim(nome) != ""
  }

  /** The payload carries the name as typed (not trimmed), the switch, and
      an empty membership. */
  function Payload(nome: string, isPublica: bool): (p: ListPayload)
    ensures p.nome == nome && p.publica == isPublica && |p.estabelecimentos| == 0
  {
    ListPayload(nome, isPublica, [])
  }

  /** The alert after a rejected request: the server's own message when the
      error carries a response, a fixed text otherwise. */
  function FailureNotice(failure: Failure): (n: Notice)
    ensures n.ServerMessage? <==> failure.ServerError?
    ensures n.ServerMessage? ==> n.message == failure.message
    ensures !n.ServerMessage? ==> n == CouldNotCreate
  {
    match failure
    case ServerError(message) => ServerMessage(message)
    case _ => CouldNotCreate
  }

  class CreateListScreen {
    var nome: string
    var isPublica: bool
    var isLoading: bool

    constructor ()
      ensures nome == "" && !isPublica && !isLoading
    {
      nome, isPublica, isLoading := "", false, false;
    }

    /** `handleSalvar`, with `response` the settled `POST /listas`. The
        screen goes back only after a success; the form is kept and the
        flag ends false either way. */
    method Save(response: Outcome<()>) returns (request: Option<ListPayload>, wentBack: bool, notice: Option<Notice>)
      requires !isLoading
      modifies this`isLoading
      ensures request == (if NameGiven(nome) then Some(Payload(nome, isPublica)) else None)
      ensures request.None? ==> notice == Some(NameRequired) && !wentBack
      ensures request.Some? ==> (wentBack <==> response.Ok?)
      ensures request.Some? && response.Ok? ==> notice == None
      ensures request.Some? && response.Err? ==> notice == Some(FailureNotice(response.failure))
      ensures !isLoading
    {
      if !NameGiven(nome) {
        return None, false, Some(NameRequired);
      }
      isLoading := true;
      request := Some(Payload(nome, isPublica));
      if response.Ok? {
        isLoading := false;
        wentBack, notice := true, None;
      } else {
        isLoading := false;
        wentBack, notice := false, Some(FailureNotice(response.failure));
      }
    }
  }
}
