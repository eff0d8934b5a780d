// The typed-keyword confirmation dialog
// (src/components/ui/TechnicalConfirmModal.tsx): the action runs only after
// the user has typed CONFIRMAR, in any letter case.

module ConfirmModal {
  import opened Text

  const Keyword: string := "CONFIRMAR"

  /** The gate of handleConfirm and of the confirm button. */
  predicate Armed(input: string)
  {
    Upper(input) == Keyword
  }

  /** The callbacks a confirm press invokes, in order. */
  datatype Call = OnConfirm | OnClose

  /** The gate accepts exactly the nine-letter inputs whose upper-cased
      letters spell the keyword. */
  lemma ArmedSpec(input: string)
    ensures Armed(input) <==> |input| == 9 && forall i :: 0 <= i < 9 ==> UpperChar(input[i]) == Keyword[i]
  {
    if |input| == 9 && forall i :: 0 <= i < 9 ==> UpperChar(input[i]) == Keyword[i] {
      assert Upper(input) == Keyword;
    }
  }

  /** The keyword typed in lower case opens the gate. */
  lemma LowerCaseArmed()
    ensures Armed("confirmar")
  {
    SpellsKeyword("confirmar");
  }

  /** So does the keyword capitalised. */
  lemma CapitalisedArmed()
    ensures Armed("Confirmar")
  {
    SpellsKeyword("Confirmar");
  }

  lemma KeywordArmed()
    ensures Armed(Keyword)
  {
    SpellsKeyword(Keyword);
  }

  lemma SpellsKeyword(input: string)
    requires |input| == 9
    requires forall i :: 0 <= i < 9 ==> input[i] == Keyword[i] || input[i] as int == Keyword[i] as int + 32
    ensures Armed(input)
  {
    forall i | 0 <= i < 9 ensures UpperChar(input[i]) == Keyword[i] {
      assert 'A' <= Keyword[i] <= 'Z';
    }
    ArmedSpec(input);
  }

  /** Surrounding spaces and missing letters do. */
  lemma NotArmedExamples()
    ensures !Armed("CONFIRMA") && !Armed(" CONFIRMAR") && !Armed("CONFIRMAR ") && !Armed("")
  {
  }

  /** Upper-casing the input first does not change the verdict. */
  lemma ArmedIgnoresCase(input: string)
    ensures Armed(Upper(input)) <==> Armed(input)
  {
    UpperIdempotent(input);
  }

  class ConfirmModalView {
    var inputValue: string
    var isAnimating: bool

    constructor ()
      ensures inputValue == "" && !isAnimating
    {
      inputValue, isAnimating := "", false;
    }

    /** The confirm button is disabled exactly when a press would be refused. */
    function ConfirmDisabled(): (disabled: bool)
      reads this
    {
      Upper(inputValue) != Keyword
    }

    /** The effect on isOpen: opening clears the input. */
    method OpenChanged(isOpen: bool)
      modifies this
      ensures isOpen ==> inputValue == "" && isAnimating && ConfirmDisabled()
      ensures !isOpen ==> inputValue == old(inputValue) && isAnimating == old(isAnimating)
    {
      if isOpen {
        isAnimating := true;
        inputValue := "";
      }
    }

    method Type(text: string)
      modifies this
      ensures inputValue == text && isAnimating == old(isAnimating)
    {
      inputValue := text;
    }

    /** handleConfirm: both callbacks, onConfirm first, when the gate is open;
        neither otherwise. */
    method HandleConfirm() returns (calls: seq<Call>)
      ensures Armed(inputValue) ==> calls == [OnConfirm, OnClose]
      ensures !Armed(inputValue) ==> calls == []
      ensures (calls != []) <==> !ConfirmDisabled()
    {
      if Upper(inputValue) == Keyword {
        calls := [OnConfirm, OnClose];
      } else {
        calls := [];
      }
    }
  }
}
