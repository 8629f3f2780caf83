/** The phone normaliser (apps/users/schemas.py, `_clean_phone`). `decimal` is the regular expression engine's class of
    decimal digits, which holds more than the ten ASCII ones. */
module Phone {
  import opened Basics
  import opened Spaces

  predicate Separator(c: char) {
    Space(c) || c == '-' || c == '(' || c == ')'
  }

  function WithoutSeparators(v: string): string {
    if v == [] then []
    else if Separator(v[0]) then WithoutSeparators(v[1..])
    else [v[0]] + WithoutSeparators(v[1..])
  }

  /** "+2507", one of 2, 3, 8, 9, then seven decimals. */
  predicate Rwandan(s: string, decimal: char -> bool) {
    |s| == 13 && s[..5] == "+2507" && s[5] in "2389" && forall i :: 6 <= i < 13 ==> decimal(s[i])
  }

  /** In the expression, `$` also matches before a final newline. */
  predicate Accepted(s: string, decimal: char -> bool) {
    Rwandan(s, decimal) || (s != [] && s[|s| - 1] == '\n' && Rwandan(s[..|s| - 1], decimal))
  }

  function International(s: string): string {
    if "07" <= s then "+250" + s[1..] else s
  }

  function CleanPhone(v: string, decimal: char -> bool): Option<string> {
    var cleaned := International(WithoutSeparators(v));
    if Accepted(cleaned, decimal) then Some(cleaned) else None
  }

  /** What goes is white space, dashes and parentheses; every other character stays, in its place. */
  lemma {:induction false} OnlySeparatorsGo(a: string, c: char)
    ensures WithoutSeparators("") == ""
    ensures WithoutSeparators(a + [c]) ==
            if c in WHITE_SPACE || c in "-()" then WithoutSeparators(a) else WithoutSeparators(a) + [c]
  {
    hide Space;
    RemovedPiecewise(a, [c]);
    SpacesListed(c);
    assert WithoutSeparators([c]) == if Separator(c) then [] else [c];
    assert WithoutSeparators(a) + [] == WithoutSeparators(a);
  }

  lemma {:induction false} NoSeparatorLeft(v: string)
    ensures forall c :: c in WithoutSeparators(v) ==> !Separator(c)
  {
    if v != [] {
      NoSeparatorLeft(v[1..]);
    }
  }

  lemma {:induction false} NothingToRemove(v: string)
    requires forall c :: c in v ==> !Separator(c)
    ensures WithoutSeparators(v) == v
  {
    if v != [] {
      NothingToRemove(v[1..]);
      assert v == [v[0]] + v[1..];
    }
  }

  lemma RemovedHead(c: char, rest: string)
    ensures WithoutSeparators([c] + rest) ==
            if Separator(c) then WithoutSeparators(rest) else [c] + WithoutSeparators(rest)
  {
    assert ([c] + rest)[1..] == rest;
  }

  lemma {:induction false} RemovedPiecewise(a: string, b: string)
    ensures WithoutSeparators(a + b) == WithoutSeparators(a) + WithoutSeparators(b)
  {
    if a == [] {
      assert a + b == b && WithoutSeparators(a) == [];
    } else {
      hide WithoutSeparators, Separator;
      var first, rest := [a[0]], a[1..];
      RemovedPiecewise(rest, b);
      RemovedHead(a[0], rest);
      RemovedHead(a[0], rest + b);
      assert a == first + rest && a + b == first + (rest + b);
    }
  }

  lemma {:induction false} InternationalForms(s: string)
    ensures (forall c :: c in s ==> !Separator(c)) ==> forall c :: c in International(s) ==> !Separator(c)
    ensures International(International(s)) == International(s)
  {
    assert "07" <= s ==> International(s)[0] == '+';
    assert forall c :: c in "+250" ==> !Separator(c);
  }

  /** The thirteen characters of an accepted number. */
  ghost predicate Numbered(r: string, decimal: char -> bool) {
    && |r| == 13 && r[0] == '+' && r[1] == '2' && r[2] == '5' && r[3] == '0' && r[4] == '7'
    && (r[5] == '2' || r[5] == '3' || r[5] == '8' || r[5] == '9')
    && forall i :: 6 <= i < 13 ==> decimal(r[i])
  }

  lemma RwandanNumbered(r: string, decimal: char -> bool)
    ensures Rwandan(r, decimal) <==> Numbered(r, decimal)
  {
  }

  /** The exact set of inputs that come out as r, in both directions: r is a 13-character Rwandan number and the input
      less its separators is r itself or its national spelling. The final-newline loophole never opens. */
  lemma {:induction false} CleanExactly(v: string, decimal: char -> bool, r: string)
    ensures CleanPhone(v, decimal) == Some(r) <==>
            Numbered(r, decimal) && (WithoutSeparators(v) == r || WithoutSeparators(v) == "0" + r[4..])
  {
    RwandanNumbered(r, decimal);
    var s := WithoutSeparators(v);
    NoSeparatorLeft(v);
    InternationalForms(s);
    var cleaned := International(s);
    assert cleaned != [] ==> cleaned[|cleaned| - 1] in cleaned;
    if Rwandan(r, decimal) {
      assert r == "+250" + r[4..] && r[4] == '7';
      if s == "0" + r[4..] {
        assert s[..2] == "07" && s[1..] == r[4..];
      }
      if s == r {
        assert r[0] == '+';
      }
    }
    if "07" <= s && cleaned == r {
      assert s == "0" + s[1..] && r[4..] == s[1..];
    }
  }

  lemma {:induction false} CleanTwice(v: string, decimal: char -> bool)
    ensures var once := CleanPhone(v, decimal);
            once.Some? ==> |once.value| == 13 && CleanPhone(once.value, decimal) == once
  {
    var once := CleanPhone(v, decimal);
    if once.Some? {
      CleanExactly(v, decimal, once.value);
      NoSeparatorLeft(v);
      InternationalForms(WithoutSeparators(v));
      NothingToRemove(once.value);
      CleanExactly(once.value, decimal, once.value);
    }
  }

  /** A separator anywhere makes no difference. */
  lemma {:induction false} SeparatorsIgnored(a: string, c: char, b: string, decimal: char -> bool)
    requires Separator(c)
    ensures CleanPhone(a + [c] + b, decimal) == CleanPhone(a + b, decimal)
  {
    RemovedPiecewise(a + [c], b);
    RemovedPiecewise(a, [c]);
    RemovedPiecewise(a, b);
    hide Accepted, International;
    assert WithoutSeparators([c]) == [];
    assert WithoutSeparators(a) + [] == WithoutSeparators(a);
  }

  /** The national and the international spelling of anything come out the same, accepted or not. */
  lemma {:induction false} SpellingsMeet(rest: string, decimal: char -> bool)
    ensures CleanPhone("07" + rest, decimal) == CleanPhone("+2507" + rest, decimal)
  {
    hide Separator, Accepted;
    RemovedPiecewise("07", rest);
    RemovedPiecewise("+2507", rest);
    PrefixesStay();
    var s := WithoutSeparators(rest);
    assert International("07" + s) == "+250" + ("07" + s)[1..];
    assert "+250" + ("07" + s)[1..] == "+2507" + s;
    assert ("+2507" + s)[0] == '+';
  }

  lemma PrefixesStay()
    ensures WithoutSeparators("07") == "07" && WithoutSeparators("+2507") == "+2507"
  {
    NothingToRemove("07");
    NothingToRemove("+2507");
  }

  predicate AsciiDigit(c: char) {
    '0' <= c <= '9'
  }

  /** With a wider digit class, accepted numbers may hold other scripts' digits: the result is all ASCII exactly when
      the last seven characters of the input, less separators, are ASCII digits. */
  lemma {:induction false} AsciiExactly(v: string, decimal: char -> bool)
    requires CleanPhone(v, decimal).Some? && forall c :: AsciiDigit(c) ==> decimal(c)
    ensures var s := WithoutSeparators(v);
            |s| >= 7 && (CleanPhone(v, AsciiDigit).Some? <==> forall i :: |s| - 7 <= i < |s| ==> AsciiDigit(s[i]))
  {
    hide CleanPhone, WithoutSeparators;
    var r := CleanPhone(v, decimal).value;
    var s := WithoutSeparators(v);
    CleanExactly(v, decimal, r);
    CleanExactly(v, AsciiDigit, r);
    assert forall i :: 6 <= i < 13 ==> r[i] == s[|s| - 13 + i];
    if CleanPhone(v, AsciiDigit).Some? {
      CleanExactly(v, AsciiDigit, CleanPhone(v, AsciiDigit).value);
    }
    forall i | |s| - 7 <= i < |s| ensures s[i] == r[13 - |s| + i] {
    }
  }

  /** Arabic-Indic zero, U+0660, is a decimal digit to Python's engine. */
  predicate PythonDigit(c: char) {
    AsciiDigit(c) || 0x660 <= c as int <= 0x669
  }

  /** The number 0781000000, its last six digits in Arabic-Indic. */
  function Foreign(): string {
    "0781" + seq(6, i => '\U{0660}')
  }

  lemma ForeignStays()
    ensures WithoutSeparators(Foreign()) == Foreign()
  {
    forall c | c in Foreign() ensures !Separator(c) {
      assert c in "0781" || c == '\U{0660}';
    }
    NothingToRemove(Foreign());
  }

  /** A number in another script's digits is accepted, and stored as typed. */
  lemma {:induction false} ForeignDigitsAccepted()
    ensures CleanPhone(Foreign(), PythonDigit) == Some("+250" + Foreign()[1..])
    ensures CleanPhone(Foreign(), AsciiDigit) == None
  {
    hide CleanPhone, WithoutSeparators;
    var v := Foreign();
    var r := "+250" + v[1..];
    ForeignStays();
    assert r[..5] == "+2507" && r[4..] == v[1..] && v == "0" + r[4..];
    assert r[5] == v[2] == '8' && r[6] == v[3] == '1';
    assert forall i :: 7 <= i < 13 ==> r[i] == v[i - 3] == '\U{0660}';
    RwandanNumbered(r, PythonDigit);
    CleanExactly(v, PythonDigit, r);
    AsciiExactly(v, PythonDigit);
    assert !AsciiDigit(v[9]);
  }
}
