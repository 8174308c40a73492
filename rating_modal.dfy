/** The rating dialog (components/AvaliacaoModal.tsx). `isLoading`,
    `onSubmit` and `onClose` are the parent's props. */
module RatingModal {
  import opened Outcomes

  /** The rating buttons, in display order. */
  function Ratings(): (r: seq<int>)
    ensures forall n :: n in r <==> 1 <= n <= 5
  {
    [1, 2, 3, 4, 5]
  }

  /** `!nota`: no rating chosen (`null`, or the falsy 0). */
  predicate NoRating(nota: Option<int>)
    ensures nota.None? ==> NoRating(nota)
    ensures nota.Some? && 1 <= nota.value <= 5 ==> !NoRating(nota)
  {
    nota.None? || nota.value == 0
  }

  /** The submit button's `disabled` prop. */
  predicate SubmitDisabled(isLoading: bool, nota: Option<int>)
    ensures !SubmitDisabled(isLoading, nota) <==> !isLoading && nota.Some? && nota.value != 0
  {
    isLoading || NoRating(nota)
  }

  /** What `handleSubmit` does: alert for a missing rating, do nothing while
      the parent is sending, or call `onSubmit(nota, comentario)`. */
  datatype SubmitAction = AskForRating | Ignore | CallSubmit(nota: int, comentario: string)

  /** The submit guard. The rating check comes first; `onSubmit` is called
      exactly when the button is enabled, with the current values. */
  function SubmitDecision(nota: Option<int>, comentario: string, isLoading: bool): (a: SubmitAction)
    ensures a == AskForRating <==> NoRating(nota)
    ensures a.CallSubmit? <==> !SubmitDisabled(isLoading, nota)
    ensures a.CallSubmit? ==> Some(a.nota) == nota && a.comentario == comentario
  {
    if NoRating(nota) then AskForRating
    else if !isLoading then CallSubmit(nota.value, comentario)
    else Ignore
  }

  class RatingDialog {
    var nota: Option<int>
    var comentario: string
    /** `onClose` has been called. */
    var closeRequested: bool

    /** The rating is unset or one of the buttons' values. */
    ghost predicate Valid()
      reads this
    {
      nota.None? || nota.value in Ratings()
    }

    constructor ()
      ensures Valid() && nota == None && comentario == "" && !closeRequested
    {
      nota, comentario, closeRequested := None, "", false;
    }

    /** Pressing the button showing `numero`. */
    method Choose(numero: int)
      requires Valid() && numero in Ratings()
      modifies this`nota
      ensures Valid() && nota == Some(numero) && !NoRating(nota)
    {
      nota := Some(numero);
    }

    /** `handleSubmit`; the state is not changed. */
    method Submit(isLoading: bool) returns (a: SubmitAction)
      requires Valid()
      ensures a == SubmitDecision(nota, comentario, isLoading)
      ensures a.CallSubmit? ==> 1 <= a.nota <= 5
    {
      if NoRating(nota) {
        return AskForRating;
      }
      if !isLoading {
        return CallSubmit(nota.value, comentario);
      }
      return Ignore;
    }

    /** `handleClose`: the form is cleared, then `onClose` is called. */
    method Close()
      modifies this
      ensures Valid() && nota == None && comentario == "" && closeRequested
    {
      nota := None;
      comentario := "";
      closeRequested := true;
    }
  }
}
