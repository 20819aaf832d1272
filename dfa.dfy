/** The generic deterministic finite automaton of dfa_validators.py (class DFA).
    States are strings, the alphabet a set of characters, and the transition
    function a partial map: a missing entry means the error state "E". */
module Dfa {

  /** Why a validation failed. The source returns a formatted message; the model
      keeps the information the message is built from. */
  datatype Message =
    | NoError
    | InvalidCharacter(ch: char)      // a character outside the alphabet
    | ErrorTransition(ch: char)       // the character that led into "E"
    | FinalNotAccepting(state: string)
    | BadFormat                       // the credit-card format check failed
    | BadDate                         // month outside 1..12 or year before 2025

  /** The (is_valid, error_message, error_position) triple returned by validate. */
  datatype Verdict = Verdict(valid: bool, message: Message, pos: int)

  datatype Automaton = Automaton(
    states: set<string>,
    alphabet: set<char>,
    transitions: map<(string, char), string>,
    start: string,
    accept: set<string>)

  const ErrorState: string := "E"

  /** One transition; an undefined one goes to the error state. */
  function Next(a: Automaton, q: string, ch: char): string
  {
    if (q, ch) in a.transitions then a.transitions[(q, ch)] else ErrorState
  }

  /** The state reached from the start state after reading all of s (a left fold): the start
      state, the error state, or the target of some transition. */
  function Run(a: Automaton, s: string): (r: string)
    ensures r == a.start || r == ErrorState || r in a.transitions.Values
  {
    if |s| == 0 then a.start else Next(a, Run(a, s[..|s| - 1]), s[|s| - 1])
  }

  /** Reading s[i] from the state reached after s[..i] stops the scan early. */
  predicate StopsAt(a: Automaton, s: string, i: nat)
    requires i < |s|
  {
    s[i] !in a.alphabet || (Next(a, Run(a, s[..i]), s[i]) == ErrorState && ErrorState !in a.accept)
  }

  /** No character of s stops the scan early. */
  predicate Clean(a: Automaton, s: string)
  {
    forall i :: 0 <= i < |s| ==> !StopsAt(a, s, i)
  }

  /** The scan of validate from position i in state q: the reference the method is proved against.
      An error position lies between i and the input length; a valid result is (True, "", -1). */
  function Scan(a: Automaton, s: string, i: nat, q: string): (r: Verdict)
    requires i <= |s|
    ensures -1 <= r.pos <= |s| && (r.valid <==> r.pos == -1)
    ensures !r.valid ==> i <= r.pos && r.message != NoError
    ensures r.valid ==> r == Verdict(true, NoError, -1)
    decreases |s| - i
  {
    if i == |s| then
      if q in a.accept then Verdict(true, NoError, -1)
      else Verdict(false, FinalNotAccepting(q), |s|)
    else if s[i] !in a.alphabet then
      Verdict(false, InvalidCharacter(s[i]), i)
    else
      var q' := Next(a, q, s[i]);
      if q' == ErrorState && ErrorState !in a.accept then Verdict(false, ErrorTransition(s[i]), i)
      else Scan(a, s, i + 1, q')
  }

  /** What validate returns for s: valid exactly when the position is -1, with an empty message. */
  function ValidateSpec(a: Automaton, s: string): (r: Verdict)
    ensures -1 <= r.pos <= |s| && (r.valid <==> r.pos == -1)
    ensures r.valid <==> r == Verdict(true, NoError, -1)
  {
    Scan(a, s, 0, a.start)
  }

  /** DFA.validate: a character loop with early returns. */
  method Validate(a: Automaton, s: string) returns (r: Verdict)
    ensures r == ValidateSpec(a, s)
    ensures -1 <= r.pos <= |s|
    ensures r.valid <==> r.pos == -1
  {
    var current := a.start;
    var i := 0;
    while i < |s|
      invariant 0 <= i <= |s|
      invariant current == Run(a, s[..i])
      invariant Scan(a, s, i, current) == ValidateSpec(a, s)
    {
      var ch := s[i];
      if ch !in a.alphabet {
        return Verdict(false, InvalidCharacter(ch), i);
      }
      var next := if (current, ch) in a.transitions then a.transitions[(current, ch)] else ErrorState;
      current := next;
      if current == ErrorState && ErrorState !in a.accept {
        return Verdict(false, ErrorTransition(ch), i);
      }
      assert s[..i + 1][..i] == s[..i];
      i := i + 1;
    }
    if current in a.accept {
      r := Verdict(true, NoError, -1);
    } else {
      r := Verdict(false, FinalNotAccepting(current), |s|);
    }
    assert s[..i] == s;
  }

  /** A character outside the alphabet ends the scan where it stands. */
  lemma ScanOutsideAlphabet(a: Automaton, s: string, i: nat, q: string)
    requires i < |s| && s[i] !in a.alphabet
    ensures Scan(a, s, i, q) == Verdict(false, InvalidCharacter(s[i]), i)
  {
  }

  /** While no early stop has happened, the scan from i in the state reached
      after s[..i] gives the same verdict as the whole validation. */
  lemma {:induction false} ScanClean(a: Automaton, s: string, i: nat)
    requires i <= |s|
    requires forall k :: i <= k < |s| ==> !StopsAt(a, s, k)
    ensures Scan(a, s, i, Run(a, s[..i])) ==
      if Run(a, s) in a.accept then Verdict(true, NoError, -1)
      else Verdict(false, FinalNotAccepting(Run(a, s)), |s|)
    decreases |s| - i
  {
    if i == |s| {
      assert s[..i] == s;
    } else {
      assert s[..i + 1][..i] == s[..i];
      assert Run(a, s[..i + 1]) == Next(a, Run(a, s[..i]), s[i]);
      assert !StopsAt(a, s, i);
      assert Scan(a, s, i, Run(a, s[..i])) == Scan(a, s, i + 1, Run(a, s[..i + 1]));
      ScanClean(a, s, i + 1);
    }
  }

  /** With no early stop, validate returns (True, "", -1) iff the fold of the
      transitions from the start state ends in an accepting state; otherwise it
      reports the final state at position |s|. */
  lemma ValidIffAccepts(a: Automaton, s: string)
    requires Clean(a, s)
    ensures ValidateSpec(a, s) == Verdict(true, NoError, -1) <==> Run(a, s) in a.accept
    ensures Run(a, s) !in a.accept ==>
      ValidateSpec(a, s) == Verdict(false, FinalNotAccepting(Run(a, s)), |s|)
  {
    assert s[..0] == [];
    ScanClean(a, s, 0);
  }

  /** Before the first early stop, the scan keeps going in the folded state. */
  lemma {:induction false} ScanUpTo(a: Automaton, s: string, i: nat, j: nat)
    requires i <= j < |s|
    requires forall k :: i <= k < j ==> !StopsAt(a, s, k)
    requires StopsAt(a, s, j)
    ensures Scan(a, s, i, Run(a, s[..i])) ==
      if s[j] !in a.alphabet then Verdict(false, InvalidCharacter(s[j]), j)
      else Verdict(false, ErrorTransition(s[j]), j)
    decreases j - i
  {
    if i < j {
      assert s[..i + 1][..i] == s[..i];
      assert Run(a, s[..i + 1]) == Next(a, Run(a, s[..i]), s[i]);
      assert !StopsAt(a, s, i);
      assert Scan(a, s, i, Run(a, s[..i])) == Scan(a, s, i + 1, Run(a, s[..i + 1]));
      ScanUpTo(a, s, i + 1, j);
    }
  }

  /** The first character outside the alphabet, reached without an earlier
      error transition, is reported at its own index. */
  lemma FirstInvalidCharacter(a: Automaton, s: string, j: nat)
    requires j < |s| && s[j] !in a.alphabet
    requires forall k :: 0 <= k < j ==> !StopsAt(a, s, k)
    ensures ValidateSpec(a, s) == Verdict(false, InvalidCharacter(s[j]), j)
  {
    assert s[..0] == [];
    ScanUpTo(a, s, 0, j);
  }

  /** A transition (missing or explicit) into a non-accepting "E" is reported
      at the index of the character that caused it. */
  lemma FirstErrorTransition(a: Automaton, s: string, j: nat)
    requires j < |s| && s[j] in a.alphabet
    requires Next(a, Run(a, s[..j]), s[j]) == ErrorState && ErrorState !in a.accept
    requires forall k :: 0 <= k < j ==> !StopsAt(a, s, k)
    ensures ValidateSpec(a, s) == Verdict(false, ErrorTransition(s[j]), j)
  {
    assert s[..0] == [];
    ScanUpTo(a, s, 0, j);
  }
}
