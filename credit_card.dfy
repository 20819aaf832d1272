/** The credit-card validator of dfa_validators.py (class CreditCardDFA):
    a 32-state transition table for "dddd dddd dddd dddd mm/aaaa cvv", a
    format check, a month/year business rule, and the generic DFA on top. */
module CreditCard {
  import opened Dfa

  type Table = map<(string, char), string>

  const Digits: string := "0123456789"

  /** set('0123456789 /') */
  const CardAlphabet: set<char> := {'0', '1', '2', '3', '4', '5', '6', '7', '8', '9', ' ', '/'}

  /** The error-state index: index 32 stands for "E", 0..31 for "S0".."S31". */
  const E: nat := 32

  predicate IsDigit(c: char)
  {
    '0' <= c <= '9'
  }

  /** The decimal digit character of d. */
  function DigitChar(d: nat): char
    requires d < 10
  {
    ('0' as int + d) as char
  }

  /** str(n) for a natural number: its decimal digits, most significant first. */
  function Decimal(n: nat): (r: string)
    ensures |r| >= 1 && (n >= 10 ==> |r| >= 2)
  {
    if n < 10 then [DigitChar(n)] else Decimal(n / 10) + [DigitChar(n % 10)]
  }

  lemma {:induction false} DecimalInjective(a: nat, b: nat)
    requires Decimal(a) == Decimal(b)
    ensures a == b
  {
    if a >= 10 && b >= 10 {
      var da, db := Decimal(a), Decimal(b);
      assert da[|da| - 1] == db[|db| - 1];
      assert da[..|da| - 1] == Decimal(a / 10);
      assert db[..|db| - 1] == Decimal(b / 10);
      DecimalInjective(a / 10, b / 10);
    } else if a < 10 && b < 10 {
      assert Decimal(a)[0] == Decimal(b)[0];
    }
  }

  /** The state name for index i: f'S{i}' for i < 32 and "E" for 32. */
  function Name(i: nat): string
    requires i <= E
  {
    if i == E then "E" else "S" + Decimal(i)
  }

  /** Distinct indices have distinct names. */
  lemma NamesDiffer(i: nat, j: nat)
    requires i <= E && j <= E && i != j
    ensures Name(i) != Name(j)
  {
    if i != E && j != E {
      if Name(i) == Name(j) {
        assert Name(i)[1..] == Decimal(i) && Name(j)[1..] == Decimal(j);
        DecimalInjective(i, j);
      }
    } else if i != E {
      assert Name(i)[0] == 'S';
    } else {
      assert Name(j)[0] == 'S';
    }
  }

  lemma NameInjective()
    ensures forall i, j :: 0 <= i <= E && 0 <= j <= E && Name(i) == Name(j) ==> i == j
  {
    forall i, j | 0 <= i <= E && 0 <= j <= E && i != j
      ensures Name(i) != Name(j)
    {
      NamesDiffer(i, j);
    }
  }

  /** The explicit transitions written by the construction's section loops. */
  predicate Expected(i: nat, c: char)
  {
    if i == 4 || i == 9 || i == 14 || i == 19 || i == 27 then c == ' '
    else if i == 20 then c == '0' || c == '1'
    else if i == 22 then c == '/'
    else i < 31 && IsDigit(c)
  }

  lemma ExpectedInAlphabet(i: nat, c: char)
    ensures Expected(i, c) ==> c in CardAlphabet
  {
    if IsDigit(c) {
      var d := c as int - '0' as int;
      assert c == DigitChar(d);
      if d < 5 {
        assert d == 0 || d == 1 || d == 2 || d == 3 || d == 4;
      } else {
        assert d == 5 || d == 6 || d == 7 || d == 8 || d == 9;
      }
    }
  }

  /** The index the table sends state i to on character c. */
  function Target(i: nat, c: char): nat
  {
    if Expected(i, c) then i + 1 else E
  }

  /** {f'S{i}' for i in range(32)} | {'E'} */
  function CardStates(): set<string>
  {
    set i | 0 <= i <= E :: Name(i)
  }

  /** The index of a state name (33 for a string that names no state). */
  function IndexFrom(q: string, i: nat): (r: nat)
    requires i <= E + 1
    ensures i <= r <= E + 1
    ensures r <= E ==> Name(r) == q
    decreases E + 1 - i
  {
    if i > E then E + 1
    else if Name(i) == q then i
    else IndexFrom(q, i + 1)
  }

  function Index(q: string): nat
  {
    IndexFrom(q, 0)
  }

  lemma {:induction false} IndexFromName(i: nat, j: nat)
    requires j <= i <= E
    ensures IndexFrom(Name(i), j) == i
    decreases i - j
  {
    if j < i {
      NamesDiffer(j, i);
      IndexFromName(i, j + 1);
    }
  }

  function CardKeys(): set<(string, char)>
  {
    set q, c | q in CardStates() && c in CardAlphabet :: (q, c)
  }

  /** The transition table as it stands after the construction: every
      (state, symbol) pair has an entry. */
  function CardTable(): Table
  {
    map k | k in CardKeys() :: Name(Target(Index(k.0), k.1))
  }

  function CardDfa(): Automaton
  {
    Automaton(CardStates(), CardAlphabet, CardTable(), Name(0), {Name(31)})
  }

  /** The start state and the alphabet of the card automaton; a newline is not in the alphabet. */
  lemma CardDfaFields()
    ensures CardDfa().start == Name(0) && CardDfa().alphabet == CardAlphabet && '\n' !in CardAlphabet
  {
  }

  /** The table entry of state i on a character of the alphabet. */
  lemma CardTableAt(i: nat, c: char)
    requires i <= E && c in CardAlphabet
    ensures (Name(i), c) in CardTable()
    ensures CardTable()[(Name(i), c)] == Name(Target(i, c))
  {
    assert Name(i) in CardStates();
    assert (Name(i), c) in CardKeys();
    IndexFromName(i, 0);
  }

  /** Every key of the table is a state paired with a symbol of the alphabet. */
  lemma CardTableKey(k: (string, char))
    requires k in CardTable()
    ensures k.1 in CardAlphabet && exists i :: 0 <= i <= E && k.0 == Name(i)
  {
    assert k in CardKeys();
  }

  /** After the fill loops the table is total on states x alphabet, has no
      other entries, and "E" is absorbing on every symbol. */
  lemma CardTableTotal()
    ensures forall q, c :: q in CardStates() && c in CardAlphabet ==> (q, c) in CardTable()
    ensures forall k :: k in CardTable() ==> k.0 in CardStates() && k.1 in CardAlphabet
    ensures forall c :: c in CardAlphabet ==> ("E", c) in CardTable() && CardTable()[("E", c)] == "E"
  {
    forall q, c | q in CardStates() && c in CardAlphabet
      ensures (q, c) in CardTable()
    {
      var i :| 0 <= i <= E && Name(i) == q;
      CardTableAt(i, c);
    }
    forall k | k in CardTable()
      ensures k.0 in CardStates() && k.1 in CardAlphabet
    {
      CardTableKey(k);
    }
    forall c | c in CardAlphabet
      ensures ("E", c) in CardTable() && CardTable()[("E", c)] == "E"
    {
      CardTableAt(E, c);
      assert Target(E, c) == E;
    }
  }

  // ---------------------------------------------------------------------
  // The construction (the body of the misspelled `_init_`), as nested loops.

  /** Every entry of t is a (state, symbol) key of the card automaton and
      already holds its final value. */
  ghost predicate Sound(t: Table)
  {
    forall k :: k in t ==>
      k.1 in CardAlphabet && exists i :: 0 <= i <= E && k.0 == Name(i) && t[k] == Name(Target(i, k.1))
  }

  /** State i already has an entry on c. */
  ghost predicate Has(t: Table, i: nat, c: char)
  {
    i <= E && (Name(i), c) in t
  }

  lemma SoundInsert(t: Table, i: nat, c: char)
    requires Sound(t) && i <= E && c in CardAlphabet
    ensures Sound(t[(Name(i), c) := Name(Target(i, c))])
  {
    var t' := t[(Name(i), c) := Name(Target(i, c))];
    forall k | k in t'
      ensures k.1 in CardAlphabet && exists j :: 0 <= j <= E && k.0 == Name(j) && t'[k] == Name(Target(j, k.1))
    {
      if k == (Name(i), c) {
        assert k.0 == Name(i) && t'[k] == Name(Target(i, k.1));
      } else {
        var j :| 0 <= j <= E && k.0 == Name(j) && t[k] == Name(Target(j, k.1));
        assert t'[k] == t[k];
      }
    }
  }

  lemma SoundAll(t: Table)
    requires Sound(t)
    requires forall i, c :: 0 <= i <= E && c in CardAlphabet ==> Has(t, i, c)
    ensures t == CardTable()
  {
    forall k | k in t
      ensures k in CardTable() && t[k] == CardTable()[k]
    {
      var i :| 0 <= i <= E && k.0 == Name(i) && t[k] == Name(Target(i, k.1));
      CardTableAt(i, k.1);
    }
    forall k | k in CardTable()
      ensures k in t
    {
      CardTableKey(k);
      var i :| 0 <= i <= E && Name(i) == k.0;
      assert Has(t, i, k.1);
    }
  }

  lemma DigitAt(k: nat)
    requires k < |Digits|
    ensures IsDigit(Digits[k]) && Digits[k] as int == '0' as int + k
  {
    if k == 0 {} else if k == 1 {} else if k == 2 {} else if k == 3 {} else if k == 4 {}
    else if k == 5 {} else if k == 6 {} else if k == 7 {} else if k == 8 {} else {}
  }

  /** Every digit of Digits having an entry means every digit has one. */
  lemma DigitsCovered(t: Table, i: nat)
    requires forall k :: 0 <= k < |Digits| ==> Has(t, i, Digits[k])
    ensures forall c :: IsDigit(c) ==> Has(t, i, c)
  {
    forall c | IsDigit(c)
      ensures Has(t, i, c)
    {
      var k := c as int - '0' as int;
      DigitAt(k);
      assert Digits[k] == c;
      assert Has(t, i, Digits[k]);
    }
  }

  /** Adding entries keeps every existing one. */
  lemma HasGrows(t: Table, t': Table)
    requires t.Keys <= t'.Keys
    ensures forall i: nat, c :: Has(t, i, c) ==> Has(t', i, c)
  {
  }

  /** Every expected transition out of the states below n is already written. */
  ghost predicate ExpectedBelow(t: Table, n: nat)
  {
    forall i: nat, c :: i < n && Expected(i, c) ==> Has(t, i, c)
  }

  /** A pair still missing after the section loops is not an expected one,
      so "E" is its final value. */
  lemma FillIsError(t: Table, i: nat, c: char)
    requires i <= E && !Has(t, i, c) && ExpectedBelow(t, 31)
    ensures Name(Target(i, c)) == ErrorState
  {
    assert !Expected(i, c);
  }

  /** The inner loop of a section: state i goes to i + 1 on every digit. */
  method AddDigits(t0: Table, i: nat) returns (t: Table)
    requires i < 31 && Sound(t0) && ExpectedBelow(t0, i)
    requires forall c :: Expected(i, c) <==> IsDigit(c)
    ensures Sound(t) && ExpectedBelow(t, i + 1)
  {
    t := t0;
    for j := 0 to |Digits|
      invariant Sound(t) && ExpectedBelow(t, i)
      invariant forall k :: 0 <= k < j ==> Has(t, i, Digits[k])
    {
      var c := Digits[j];
      DigitAt(j);
      SoundInsert(t, i, c);
      t := t[(Name(i), c) := Name(i + 1)];
    }
    DigitsCovered(t, i);
  }

  /** One section loop: states lo..hi-1 each go to the next state on every digit. */
  method AddDigitRun(t0: Table, lo: nat, hi: nat) returns (t: Table)
    requires lo <= hi <= 31 && Sound(t0) && ExpectedBelow(t0, lo)
    requires forall i, c :: lo <= i < hi ==> (Expected(i, c) <==> IsDigit(c))
    ensures Sound(t) && ExpectedBelow(t, hi)
  {
    t := t0;
    for i := lo to hi
      invariant Sound(t) && ExpectedBelow(t, i)
    {
      t := AddDigits(t, i);
    }
  }

  /** A single explicit entry such as transitions[('S4', ' ')] = 'S5'. */
  method AddOne(t0: Table, i: nat, c: char) returns (t: Table)
    requires i < 31 && c in CardAlphabet && Sound(t0) && ExpectedBelow(t0, i)
    requires forall d :: Expected(i, d) <==> d == c
    ensures Sound(t) && ExpectedBelow(t, i + 1)
  {
    SoundInsert(t0, i, c);
    t := t0[(Name(i), c) := Name(i + 1)];
    HasGrows(t0, t);
    forall j: nat, d | j < i + 1 && Expected(j, d)
      ensures Has(t, j, d)
    {
      if j == i {
        assert d == c;
      }
    }
  }

  /** The first digit of the month: S20 goes to S21 on '0' and '1'. */
  method AddMonthFirst(t0: Table) returns (t: Table)
    requires Sound(t0) && ExpectedBelow(t0, 20)
    ensures Sound(t) && ExpectedBelow(t, 21)
  {
    t := t0;
    for j := 0 to 2
      invariant Sound(t) && ExpectedBelow(t, 20)
      invariant forall k :: 0 <= k < j ==> Has(t, 20, "01"[k])
    {
      var m1 := "01"[j];
      SoundInsert(t, 20, m1);
      t := t[(Name(20), m1) := Name(21)];
    }
    assert "01"[0] == '0' && "01"[1] == '1';
  }

  /** The fill loops: every (state, symbol) pair without an entry goes to "E". */
  method FillErrors(t0: Table) returns (t: Table)
    requires Sound(t0) && ExpectedBelow(t0, 31)
    ensures Sound(t)
    ensures forall i, c :: 0 <= i <= E && c in CardAlphabet ==> Has(t, i, c)
  {
    t := t0;
    var states := CardStates();
    var todo := states;
    while todo != {}
      invariant todo <= states
      invariant Sound(t) && ExpectedBelow(t, 31)
      invariant forall i, c :: 0 <= i <= E && Name(i) !in todo && c in CardAlphabet ==> Has(t, i, c)
      decreases todo
    {
      var q :| q in todo;
      ghost var iq :| 0 <= iq <= E && Name(iq) == q;
      ghost var before := t;
      t := FillRow(t, q, iq);
      RowDone(before, t, todo, iq);
      todo := todo - {q};
    }
  }

  /** Once the row of state i is filled, every state outside todo - {Name(i)} has all its entries. */
  lemma RowDone(t0: Table, t: Table, todo: set<string>, i: nat)
    requires i <= E && t0.Keys <= t.Keys
    requires forall j, c :: 0 <= j <= E && Name(j) !in todo && c in CardAlphabet ==> Has(t0, j, c)
    requires forall c :: c in CardAlphabet ==> Has(t, i, c)
    ensures forall j, c :: 0 <= j <= E && Name(j) !in todo - {Name(i)} && c in CardAlphabet ==> Has(t, j, c)
  {
    forall j, c | 0 <= j <= E && Name(j) !in todo - {Name(i)} && c in CardAlphabet
      ensures Has(t, j, c)
    {
      if j != i {
        NamesDiffer(i, j);
        assert Has(t0, j, c);
      }
    }
  }

  /** The inner fill loop for the state q, whose index is i: every symbol without an entry goes to "E". */
  method FillRow(t0: Table, q: string, ghost i: nat) returns (t: Table)
    requires i <= E && Name(i) == q && Sound(t0) && ExpectedBelow(t0, 31)
    ensures Sound(t) && ExpectedBelow(t, 31) && t0.Keys <= t.Keys
    ensures forall c :: c in CardAlphabet ==> Has(t, i, c)
  {
    t := t0;
    var chars := CardAlphabet;
    while chars != {}
      invariant chars <= CardAlphabet
      invariant Sound(t) && ExpectedBelow(t, 31) && t0.Keys <= t.Keys
      invariant forall c :: c in CardAlphabet - chars ==> Has(t, i, c)
      decreases chars
    {
      var c :| c in chars;
      if (q, c) !in t {
        FillIsError(t, i, c);
        SoundInsert(t, i, c);
        ghost var before := t;
        t := t[(q, c) := ErrorState];
        HasGrows(before, t);
      }
      chars := chars - {c};
    }
  }

  /** The table construction: the section loops in the order of the format,
      the fill loops, then the "E" self-loops. */
  method BuildCardTransitions() returns (t: Table)
    ensures t == CardTable()
  {
    t := map[];
    // 1.-4. the four groups of four digits, each followed by a space
    t := AddDigitRun(t, 0, 4);
    t := AddOne(t, 4, ' ');
    t := AddDigitRun(t, 5, 9);
    t := AddOne(t, 9, ' ');
    t := AddDigitRun(t, 10, 14);
    t := AddOne(t, 14, ' ');
    t := AddDigitRun(t, 15, 19);
    t := AddOne(t, 19, ' ');
    // 5. the month (first digit 0 or 1, then any digit), '/', the year, a space
    t := AddMonthFirst(t);
    t := AddDigits(t, 21);
    t := AddOne(t, 22, '/');
    t := AddDigitRun(t, 23, 27);
    t := AddOne(t, 27, ' ');
    // 6. the three digits of the CVV
    t := AddDigitRun(t, 28, 31);
    t := FillErrors(t);
    // once in 'E', every symbol keeps it there
    var symbols := CardAlphabet;
    while symbols != {}
      invariant Sound(t)
      invariant forall i, c :: 0 <= i <= E && c in CardAlphabet ==> Has(t, i, c)
      decreases symbols
    {
      var c :| c in symbols;
      SoundInsert(t, E, c);
      ghost var before := t;
      t := t[(ErrorState, c) := ErrorState];
      HasGrows(before, t);
      symbols := symbols - {c};
    }
    SoundAll(t);
  }

  /** The body of `_init_`: the table, wrapped in a DFA with start "S0" and
      the single accepting state "S31". */
  method CreditCardInit() returns (a: Automaton)
    ensures a == CardDfa()
  {
    var states := (set i | 0 <= i < 32 :: "S" + Decimal(i)) + {"E"};
    assert states == CardStates() by {
      forall q | q in CardStates()
        ensures q in states
      {
        var i :| 0 <= i <= E && Name(i) == q;
        if i < E {
          assert q == "S" + Decimal(i);
        }
      }
      forall q | q in states
        ensures q in CardStates()
      {
        if q == "E" {
          assert Name(E) == q;
        } else {
          var i :| 0 <= i < 32 && q == "S" + Decimal(i);
          assert Name(i) == q;
        }
      }
    }
    var transitions := BuildCardTransitions();
    assert Name(0) == "S0" && Name(31) == "S31";
    var alphabet := set c | c in "0123456789 /";
    a := Automaton(states, alphabet, transitions, "S0", {"S31"});
  }

  // ---------------------------------------------------------------------
  // What the credit-card automaton accepts.

  /** The strings of the automaton's language: 31 characters, each the one
      its position expects. */
  predicate CardShape(s: string)
  {
    |s| == 31 && forall i :: 0 <= i < 31 ==> Expected(i, s[i])
  }

  /** s ends at 31 and its characters from i on are the expected ones. */
  predicate RestExpected(s: string, i: nat)
  {
    |s| == 31 && forall k :: i <= k < 31 ==> Expected(k, s[k])
  }

  /** From state S<i>, the scan accepts exactly when the rest of s is the
      expected characters up to position 31 and s ends there. */
  lemma {:induction false} CardScan(s: string, i: nat)
    requires i <= 31 && i <= |s|
    ensures Scan(CardDfa(), s, i, Name(i)).valid <==> RestExpected(s, i)
    decreases |s| - i
  {
    if i == |s| {
      if i != 31 {
        NamesDiffer(i, 31);
      }
    } else if i < 31 && Expected(i, s[i]) {
      CardScanAdvance(s, i);
      CardScan(s, i + 1);
      assert RestExpected(s, i) <==> RestExpected(s, i + 1);
    } else {
      CardScanStops(s, i);
      assert !RestExpected(s, i);
    }
  }

  /** An expected character moves the scan from S<i> to S<i+1>. */
  lemma CardScanAdvance(s: string, i: nat)
    requires i < 31 && i < |s| && Expected(i, s[i])
    ensures Scan(CardDfa(), s, i, Name(i)) == Scan(CardDfa(), s, i + 1, Name(i + 1))
  {
    ExpectedInAlphabet(i, s[i]);
    CardTableAt(i, s[i]);
    NamesDiffer(i + 1, E);
  }

  /** Any other character stops the scan with an error. */
  lemma CardScanStops(s: string, i: nat)
    requires i <= 31 && i < |s| && !(i < 31 && Expected(i, s[i]))
    ensures !Scan(CardDfa(), s, i, Name(i)).valid
  {
    if s[i] in CardAlphabet {
      CardTableAt(i, s[i]);
      assert Target(i, s[i]) == E;
      NamesDiffer(E, 31);
    }
  }

  /** The automaton accepts only from S31, so exactly the strings of the form
      dddd dddd dddd dddd Md/yyyy ccc with M in {0, 1}. */
  lemma CardAcceptsExactly(s: string)
    ensures ValidateSpec(CardDfa(), s).valid <==> CardShape(s)
  {
    CardScan(s, 0);
  }

  /** On a string whose first 31 characters fit, the scan reaches S31 at index 31. */
  lemma {:induction false} CardScanPrefix(s: string, i: nat)
    requires i <= 31 < |s|
    requires forall k :: i <= k < 31 ==> Expected(k, s[k])
    ensures Scan(CardDfa(), s, i, Name(i)) == Scan(CardDfa(), s, 31, Name(31))
    decreases 31 - i
  {
    if i < 31 {
      CardScanAdvance(s, i);
      CardScanPrefix(s, i + 1);
    }
  }

  // ---------------------------------------------------------------------
  // CreditCardDFA.validate

  /** The slot of position i in ^\d{4} \d{4} \d{4} \d{4} \d{2}/\d{4} \d{3}$ */
  predicate PatternSlot(i: nat, c: char)
  {
    if i == 4 || i == 9 || i == 14 || i == 19 || i == 27 then c == ' '
    else if i == 22 then c == '/'
    else IsDigit(c)
  }

  /** The first 31 characters of s fit the pattern. */
  predicate Slots(s: string)
  {
    |s| >= 31 && forall k :: 0 <= k < 31 ==> PatternSlot(k, s[k])
  }

  /** re.match with the pattern above: `$` also matches before one final newline. */
  predicate FormatMatches(s: string)
  {
    Slots(s) && (|s| == 31 || (|s| == 32 && s[31] == '\n'))
  }

  /** The numeric value of a digit character. */
  function DigitValue(c: char): int
  {
    c as int - '0' as int
  }

  /** int() of a string of ASCII digits. */
  function DigitsValue(s: string): nat
    requires forall i :: 0 <= i < |s| ==> IsDigit(s[i])
  {
    if |s| == 0 then 0
    else
      assert IsDigit(s[|s| - 1]);
      DigitsValue(s[..|s| - 1]) * 10 + DigitValue(s[|s| - 1])
  }

  /** str.find: the first index of c in s, or -1. */
  function Find(s: string, c: char): (r: int)
    ensures -1 <= r < |s|
    ensures r >= 0 ==> s[r] == c && forall k :: 0 <= k < r ==> s[k] != c
    ensures r == -1 ==> c !in s
  {
    if |s| == 0 then -1
    else if s[0] == c then 0
    else var r := Find(s[1..], c); if r == -1 then -1 else r + 1
  }

  /** int() of the month part s[20..22]: its two-digit decimal value. */
  function Month(s: string): (r: nat)
    requires Slots(s)
    ensures r == DigitValue(s[20]) * 10 + DigitValue(s[21]) && r <= 99
  {
    assert PatternSlot(20, s[20]) && PatternSlot(21, s[21]);
    assert s[20..22] == [s[20], s[21]];
    assert [s[20], s[21]][..1] == [s[20]] && [s[20]][..0] == [];
    assert DigitsValue([s[20]]) == DigitValue(s[20]);
    DigitsValue(s[20..22])
  }

  /** int() of the year part s[23..27]: its four-digit decimal value. */
  function Year(s: string): (r: nat)
    requires Slots(s)
    ensures r == ((DigitValue(s[23]) * 10 + DigitValue(s[24])) * 10 + DigitValue(s[25])) * 10 + DigitValue(s[26])
    ensures r <= 9999
  {
    assert PatternSlot(23, s[23]) && PatternSlot(24, s[24]) && PatternSlot(25, s[25]) && PatternSlot(26, s[26]);
    assert s[23..27] == [s[23], s[24], s[25], s[26]];
    assert [s[23], s[24], s[25], s[26]][..3] == [s[23], s[24], s[25]];
    assert [s[23], s[24], s[25]][..2] == [s[23], s[24]];
    assert [s[23], s[24]][..1] == [s[23]] && [s[23]][..0] == [];
    assert DigitsValue([s[23]]) == DigitValue(s[23]);
    assert DigitsValue([s[23], s[24]]) == DigitValue(s[23]) * 10 + DigitValue(s[24]);
    assert DigitsValue([s[23], s[24], s[25]]) == DigitsValue([s[23], s[24]]) * 10 + DigitValue(s[25]);
    DigitsValue(s[23..27])
  }

  predicate DateOk(s: string)
    requires Slots(s)
  {
    1 <= Month(s) <= 12 && Year(s) >= 2025
  }

  /** CreditCardDFA.validate with a constructed automaton: format check,
      then the month/year rule, then the DFA. Under the format check the
      fifth space-separated field is s[20..27], its month s[20..22] and its
      year s[23..27]. */
  function CreditCardValidate(s: string): (r: Verdict)
    ensures -1 <= r.pos <= |s|
    ensures r.valid <==> r == Verdict(true, NoError, -1)
  {
    if !FormatMatches(s) then Verdict(false, BadFormat, 0)
    else if !DateOk(s) then
      assert PatternSlot(22, s[22]);
      Verdict(false, BadDate, Find(s, '/'))
    else ValidateSpec(CardDfa(), s)
  }

  /** What a call of validate can end in as written: `_init_` is never run
      as a constructor, so `self.dfa` does not exist when step 3 is reached. */
  datatype CallOutcome = Returned(verdict: Verdict) | AttributeErrorRaised

  /** validate as written: it can never report a valid card, since every input that passes the
      format and date checks raises AttributeError; every other input gets the corrected verdict. */
  function CreditCardValidateAsWritten(s: string): (r: CallOutcome)
    ensures r != Returned(Verdict(true, NoError, -1))
    ensures r == AttributeErrorRaised <==> FormatMatches(s) && DateOk(s)
    ensures r.Returned? ==> r.verdict == CreditCardValidate(s)
  {
    if !FormatMatches(s) then Returned(Verdict(false, BadFormat, 0))
    else if !DateOk(s) then Returned(Verdict(false, BadDate, Find(s, '/')))
    else AttributeErrorRaised
  }

  /** A month of at most 12 written with two digits starts with 0 or 1. */
  lemma MonthFirstDigit(s: string)
    requires Slots(s) && Month(s) <= 12
    ensures s[20] == '0' || s[20] == '1'
  {
    var m := s[20..22];
    assert DigitsValue(m) == DigitsValue(m[..1]) * 10 + (m[1] as int - '0' as int);
    assert DigitsValue(m[..1]) == m[0] as int - '0' as int;
  }

  /** The pattern and the month rule together give the automaton's shape on the first 31 characters. */
  lemma ShapeFromPattern(s: string)
    requires Slots(s) && DateOk(s)
    ensures forall k :: 0 <= k < 31 ==> Expected(k, s[k])
  {
    MonthFirstDigit(s);
  }

  /** A card followed by the newline that `$` admits is stopped by the
      automaton at that newline. */
  lemma TrailingNewline(s: string)
    requires |s| == 32 && s[31] == '\n'
    requires forall k :: 0 <= k < 31 ==> Expected(k, s[k])
    ensures ValidateSpec(CardDfa(), s) == Verdict(false, InvalidCharacter('\n'), 31)
  {
    CardScanPrefix(s, 0);
    CardDfaFields();
    ScanOutsideAlphabet(CardDfa(), s, 31, Name(31));
  }

  /** The whole contract of validate: valid exactly on 31-character strings
      of the pattern with month 1..12 and year >= 2025; a format mismatch is
      reported at 0, a bad date at the index of '/', and a trailing newline
      (admitted by the pattern's `$`) at 31 by the automaton. */
  lemma CreditCardValidateContract(s: string)
    ensures CreditCardValidate(s).valid <==> |s| == 31 && FormatMatches(s) && DateOk(s)
    ensures !FormatMatches(s) ==> CreditCardValidate(s) == Verdict(false, BadFormat, 0)
    ensures FormatMatches(s) && !DateOk(s) ==> CreditCardValidate(s) == Verdict(false, BadDate, 22)
    ensures FormatMatches(s) && DateOk(s) && |s| == 32 ==>
      CreditCardValidate(s) == Verdict(false, InvalidCharacter('\n'), 31)
  {
    CardAcceptsExactly(s);
    if FormatMatches(s) {
        assert s[22] == '/';
      assert forall k :: 0 <= k < 22 ==> s[k] != '/' by {
        forall k | 0 <= k < 22 ensures s[k] != '/' {
          assert PatternSlot(k, s[k]);
        }
      }
      if DateOk(s) {
        ShapeFromPattern(s);
        if |s| == 32 {
          TrailingNewline(s);
        }
      }
    }
  }

  /** A 31-character string of the pattern with a good date is a valid card. */
  lemma AcceptedCard(s: string)
    requires |s| == 31 && Slots(s) && DateOk(s)
    ensures CreditCardValidate(s) == Verdict(true, NoError, -1)
  {
    CreditCardValidateContract(s);
  }

  /** A string of the pattern with a bad date is rejected at its '/'. */
  lemma RejectedDate(s: string)
    requires |s| == 31 && Slots(s) && !DateOk(s)
    ensures CreditCardValidate(s) == Verdict(false, BadDate, 22)
  {
    CreditCardValidateContract(s);
  }

  /** The fields of an example card: the pattern holds and the month and year read as given. */
  lemma {:induction false} ExampleFields(s: string, month: nat, year: nat)
    requires |s| == 31
    requires forall k :: 0 <= k < 31 ==> PatternSlot(k, s[k])
    requires DigitValue(s[20]) * 10 + DigitValue(s[21]) == month
    requires ((DigitValue(s[23]) * 10 + DigitValue(s[24])) * 10 + DigitValue(s[25])) * 10 + DigitValue(s[26]) == year
    ensures CreditCardValidate(s) ==
      if 1 <= month <= 12 && year >= 2025 then Verdict(true, NoError, -1) else Verdict(false, BadDate, 22)
  {
    if 1 <= month <= 12 && year >= 2025 {
      AcceptedCard(s);
    } else {
      RejectedDate(s);
    }
  }

  /** The first valid example of main_dfa.py raises as written and is accepted by the corrected model. */
  lemma ValidExampleRaises()
    ensures CreditCardValidateAsWritten("1234 5678 9012 3456 03/2029 336") == AttributeErrorRaised
    ensures CreditCardValidate("1234 5678 9012 3456 03/2029 336") == Verdict(true, NoError, -1)
  {
    var s := "1234 5678 9012 3456 03/2029 336";
    assert forall k :: 0 <= k < 31 ==> PatternSlot(k, s[k]);
    ExampleFields(s, 3, 2029);
  }

  /** The second valid example of main_dfa.py is accepted. */
  lemma SecondValidExample()
    ensures CreditCardValidate("4321 8765 2109 6543 12/2030 789") == Verdict(true, NoError, -1)
  {
    var s := "4321 8765 2109 6543 12/2030 789";
    assert forall k :: 0 <= k < 31 ==> PatternSlot(k, s[k]);
    ExampleFields(s, 12, 2030);
  }

  /** The third valid example of main_dfa.py is accepted. */
  lemma ThirdValidExample()
    ensures CreditCardValidate("9876 5432 1098 7654 05/2026 123") == Verdict(true, NoError, -1)
  {
    var s := "9876 5432 1098 7654 05/2026 123";
    assert forall k :: 0 <= k < 31 ==> PatternSlot(k, s[k]);
    ExampleFields(s, 5, 2026);
  }

  /** The example of main_dfa.py with month 13 is rejected at the '/'. */
  lemma MonthThirteenExample()
    ensures CreditCardValidate("1234 5678 9012 3456 13/2029 336") == Verdict(false, BadDate, 22)
  {
    var s := "1234 5678 9012 3456 13/2029 336";
    assert forall k :: 0 <= k < 31 ==> PatternSlot(k, s[k]);
    ExampleFields(s, 13, 2029);
  }

  /** The example of main_dfa.py with year 2024 is rejected at the '/'. */
  lemma ExpiredYearExample()
    ensures CreditCardValidate("1234 5678 9012 3456 03/2024 336") == Verdict(false, BadDate, 22)
  {
    var s := "1234 5678 9012 3456 03/2024 336";
    assert forall k :: 0 <= k < 31 ==> PatternSlot(k, s[k]);
    ExampleFields(s, 3, 2024);
  }

  /** The badly formatted examples of main_dfa.py: rejected at 0. */
  lemma BadFormatExamples()
    ensures CreditCardValidate("123 4567 8901 2345 01/2025 123") == Verdict(false, BadFormat, 0)
    ensures CreditCardValidate("1234 5678 9012 3456 01/2025 12") == Verdict(false, BadFormat, 0)
    ensures CreditCardValidate("ABCD 1234 5678 9012 01/2025 123") == Verdict(false, BadFormat, 0)
  {
    var b3 := "123 4567 8901 2345 01/2025 123";
    assert !PatternSlot(3, b3[3]);
    var b5 := "ABCD 1234 5678 9012 01/2025 123";
    assert !PatternSlot(0, b5[0]);
  }
}
