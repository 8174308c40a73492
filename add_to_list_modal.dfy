/** The "add to list" dialog (components/AdicionarListaModal.tsx). `visible`
    and `onClose` are the parent's props; the two requests it makes are
    modelled in two steps, the call and its settling, because the state in
    between (spinner, the list being sent) is shown. */
module AddToListModal {
  import opened Outcomes

  /** An id as the API returns it: `string | number`. */
  datatype Id = StrId(s: string) | NumId(n: int)

  /** `MinhaLista`: one of the user's lists. */
  datatype ListSummary = ListSummary(id: Id, nome: string)

  /** `!!isSubmitting`: JavaScript truthiness of the id being sent. The
      empty string and the number 0 are falsy. */
  predicate Truthy(submitting: Option<Id>)
    ensures Truthy(submitting) <==> submitting.Some? && submitting.value !in {StrId(""), NumId(0)}
  {
    match submitting
    case None => false
    case Some(StrId(s)) => s != ""
    case Some(NumId(n)) => n != 0
  }

  /** What `renderContent` shows. */
  datatype Content = Spinner | EmptyMessage | Rows(listas: seq<ListSummary>, disabled: bool)

  /** The three-way choice: the spinner while loading, else the empty text
      when there is no list, else one row per list, all disabled while a
      truthy id is being sent. */
  function RenderContent(isLoading: bool, listas: seq<ListSummary>, isSubmitting: Option<Id>): (c: Content)
    ensures c == Spinner <==> isLoading
    ensures c == EmptyMessage <==> !isLoading && |listas| == 0
    ensures c.Rows? <==> !isLoading && |listas| > 0
    ensures c.Rows? ==> c.listas == listas && (c.disabled <==> Truthy(isSubmitting))
  {
    if isLoading then Spinner
    else if |listas| == 0 then EmptyMessage
    else Rows(listas, Truthy(isSubmitting))
  }

  /** The id 0 does not disable the rows: while list 0 is being sent every
      row, list 0's included, can be pressed again. */
  lemma ZeroIdLeavesRowsEnabled(listas: seq<ListSummary>)
    requires |listas| > 0
    ensures RenderContent(false, listas, Some(NumId(0))) == Rows(listas, false)
    ensures RenderContent(false, listas, Some(StrId("7"))) == Rows(listas, true)
  {
  }

  /** The body of `POST /listas/:listaId/estabelecimentos`. */
  datatype AddRequest = AddRequest(listaId: Id, estabelecimentoId: Id)

  /** The alerts the dialog raises: the lists could not be loaded, the place
      was added, or it could not be added. */
  datatype Notice = CouldNotLoad | Added | CouldNotAdd

  class ListPicker {
    /** The establishment to add (a prop). */
    const estabelecimentoId: Id
    var listas: seq<ListSummary>
    var isLoading: bool
    var isSubmitting: Option<Id>
    /** `onClose` has been called. */
    var closeRequested: bool

    constructor (estabelecimentoId: Id)
      ensures this.estabelecimentoId == estabelecimentoId
      ensures listas == [] && !isLoading && isSubmitting == None && !closeRequested
    {
      this.estabelecimentoId := estabelecimentoId;
      listas, isLoading, isSubmitting, closeRequested := [], false, None, false;
    }

    /** What the dialog shows now. */
    function Content(): Content
      reads this
    {
      RenderContent(isLoading, listas, isSubmitting)
    }

    /** The `[visible]` effect: the lists are fetched only when the dialog
        becomes visible; `fetchListas` turns the spinner on. */
    method VisibleChanged(visible: bool) returns (fetching: bool)
      modifies this`isLoading
      ensures fetching == visible
      ensures isLoading == (visible || old(isLoading))
      ensures visible ==> Content() == Spinner
    {
      fetching := visible;
      if visible {
        isLoading := true;
      }
    }

    /** `GET /listas` settled: a success replaces the lists, a failure
        alerts, closes the dialog and keeps the old ones; the spinner goes
        off. */
    method FetchSettled(response: Outcome<seq<ListSummary>>) returns (notice: Option<Notice>)
      modifies this`listas, this`isLoading, this`closeRequested
      ensures !isLoading
      ensures notice.Some? <==> response.Err?
      ensures response.Ok? ==> listas == response.value && closeRequested == old(closeRequested)
      ensures response.Err? ==> listas == old(listas) && closeRequested && notice == Some(CouldNotLoad)
    {
      if response.Ok? {
        listas := response.value;
        notice := None;
      } else {
        notice := Some(CouldNotLoad);
        closeRequested := true;
      }
      isLoading := false;
    }

    /** `handleListPress(listaId)` up to the request: the pressed row is
        enabled, and its id is recorded as the one being sent. */
    method PressList(listaId: Id) returns (request: AddRequest)
      requires Content().Rows? && !Content().disabled
      requires exists i :: 0 <= i < |listas| && listas[i].id == listaId
      modifies this`isSubmitting
      ensures isSubmitting == Some(listaId)
      ensures request == AddRequest(listaId, estabelecimentoId)
    {
      isSubmitting := Some(listaId);
      request := AddRequest(listaId, estabelecimentoId);
    }

    /** The add request settled: a success alerts and closes the dialog, a
        failure alerts and keeps it open; either way no id is being sent
        any more. */
    method AddSettled(response: Outcome<()>) returns (notice: Notice)
      modifies this`isSubmitting, this`closeRequested
      ensures isSubmitting == None && !Truthy(isSubmitting)
      ensures closeRequested == (old(closeRequested) || response.Ok?)
      ensures notice == Added <==> response.Ok?
      ensures notice == CouldNotAdd <==> response.Err?
    {
      if response.Ok? {
        notice := Added;
        closeRequested := true;
      } else {
        notice := CouldNotAdd;
      }
      isSubmitting := None;
    }

    /** `handleCriarLista`: close the dialog, then push the create screen. */
    method CreateNewList() returns (pushed: string)
      modifies this`closeRequested
      ensures closeRequested && pushed == "/criarLista"
    {
      closeRequested := true;
      pushed := "/criarLista";
    }
  }
}
