/** The "suggest a place" screen (app/sugerir-estabelecimento.tsx). */
module Suggest {
  import opened Outcomes
  import opened Text

  /** The body of `POST /sugestoes`; the category field is sent as
      `subcategoria`. */
  datatype Suggestion = Suggestion(nome: string, endereco: string, subcategoria: string)

  datatype Notice = FillRequiredFields | Thanks | CouldNotSend

  /** The required-field guard: name and address need a visible character;
      the category does not take part. */
  function RequiredFilled(nome: string, endereco: string): (ok: bool)
    ensures ok <==> !IsBlank(nome) && !IsBlank(endereco)
  {
    TrimEmptyIffBlank(nome);
    TrimEmptyIffBlank(endereco);
    !(Trim(nome) == "" || Trim(endereco) == "")
  }

  class SuggestScreen {
    var nome: string
    var endereco: string
    var categoria: string
    var loading: bool

    constructor ()
      ensures nome == "" && endereco == "" && categoria == "" && !loading
    {
      nome, endereco, categoria, loading := "", "", "", false;
    }

    /** `handleSugerir`, with `response` the settled `POST /sugestoes`. The
        fields go out as typed; the screen goes back only after a success
        and the flag ends false. */
    method Submit(response: Outcome<()>) returns (request: Option<Suggestion>, wentBack: bool, notice: Notice)
      requires !loading
      modifies this`loading
      ensures request.Some? <==> !IsBlank(nome) && !IsBlank(endereco)
      ensures request.Some? ==> request.value == Suggestion(nome, endereco, categoria)
      ensures request.None? ==> notice == FillRequiredFields && !wentBack
      ensures request.Some? ==> (wentBack <==> response.Ok?) && notice == (if response.Ok? then Thanks else CouldNotSend)
      ensures !loading
    {
      if !RequiredFilled(nome, endereco) {
        return None, false, FillRequiredFields;
      }
      loading := true;
      request := Some(Suggestion(nome, endereco, categoria));
      if response.Ok? {
        wentBack, notice := true, Thanks;
      } else {
        wentBack, notice := false, CouldNotSend;
      }
      loading := false;
    }
  }
}
