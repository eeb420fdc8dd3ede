/** Monitor slugs (watchpost/config.py, and the same rule again in
    watchpost/discovery.py): lower-case the name, replace every run of
    characters other than a-z and 0-9 by one dash, strip dashes at both ends.
    Lower-casing is that of ASCII. */
module Slugs {

  function Lower(c: char): char {
    if 'A' <= c <= 'Z' then (c as int + 32) as char else c
  }

  predicate Alnum(c: char) {
    'a' <= c <= 'z' || '0' <= c <= '9'
  }

  /** The regular-expression replacement: the last character of a run of
      other characters leaves the dash. */
  function Collapse(s: string): string {
    if s == "" then ""
    else
      var c := Lower(s[0]);
      if Alnum(c) then [c] + Collapse(s[1..])
      else if |s| > 1 && !Alnum(Lower(s[1])) then Collapse(s[1..])
      else "-" + Collapse(s[1..])
  }

  function StripLeft(s: string): string {
    if s != "" && s[0] == '-' then StripLeft(s[1..]) else s
  }

  function StripRight(s: string): string {
    if s != "" && s[|s| - 1] == '-' then StripRight(s[..|s| - 1]) else s
  }

  function Slug(name: string): string {
    StripLeft(StripRight(Collapse(name)))
  }

  // ------------------------------------------------------- shape and idempotence

  /** Only a-z, 0-9 and dashes, and no two dashes in a row. */
  predicate Collapsed(s: string) {
    && (forall i | 0 <= i < |s| :: Alnum(s[i]) || s[i] == '-')
    && (forall i | 0 <= i < |s| - 1 :: s[i] == '-' ==> s[i + 1] != '-')
  }

  predicate IsSlug(s: string) {
    Collapsed(s) && (s != "" ==> s[0] != '-' && s[|s| - 1] != '-')
  }

  lemma {:induction false} CollapseShape(s: string)
    ensures Collapsed(Collapse(s))
    ensures Collapse(s) != "" && Alnum(Lower(s[0])) ==> Collapse(s)[0] == Lower(s[0])
    ensures s != "" ==> Collapse(s) != ""
  {
    if s != "" {
      CollapseShape(s[1..]);
    }
  }

  lemma {:induction false} StripLeftShape(s: string)
    requires Collapsed(s)
    ensures Collapsed(StripLeft(s))
    ensures StripLeft(s) != "" ==> StripLeft(s)[0] != '-' && StripLeft(s)[|StripLeft(s)| - 1] == s[|s| - 1]
  {
    if s != "" && s[0] == '-' {
      StripLeftShape(s[1..]);
    }
  }

  lemma {:induction false} StripRightShape(s: string)
    requires Collapsed(s)
    ensures Collapsed(StripRight(s))
    ensures StripRight(s) != "" ==> StripRight(s)[|StripRight(s)| - 1] != '-'
  {
    if s != "" && s[|s| - 1] == '-' {
      StripRightShape(s[..|s| - 1]);
    }
  }

  lemma SlugShape(name: string)
    ensures IsSlug(Slug(name))
  {
    CollapseShape(name);
    StripRightShape(Collapse(name));
    StripLeftShape(StripRight(Collapse(name)));
  }

  lemma {:induction false} CollapseFixes(s: string)
    requires Collapsed(s)
    ensures Collapse(s) == s
  {
    if s != "" {
      CollapseFixes(s[1..]);
      assert s == [s[0]] + s[1..];
    }
  }

  lemma SlugFixes(s: string)
    requires IsSlug(s)
    ensures Slug(s) == s
  {
    CollapseFixes(s);
  }

  /** Slugging a slug changes nothing, so a reference may be a name or a slug. */
  lemma SlugIdempotent(name: string)
    ensures Slug(Slug(name)) == Slug(name)
  {
    SlugShape(name);
    SlugFixes(Slug(name));
  }

  // ----------------------------------------------------------- what a slug holds

  /** Large letters become the small ones of the same place in the alphabet, and nothing else changes. */
  lemma LowerExact(c: char)
    ensures 'A' <= c <= 'Z' ==> 'a' <= Lower(c) <= 'z' && Lower(c) as int - 'a' as int == c as int - 'A' as int
    ensures !('A' <= c <= 'Z') ==> Lower(c) == c
  {
  }

  /** The words of a name: its runs of letters and digits, lower-cased, from left to right. */
  function Words(name: string): (ws: seq<string>)
    ensures forall i | 0 <= i < |ws| :: ws[i] != ""
    ensures name != "" && InWord(name[0]) ==> ws != []
  {
    if name == "" then []
    else
      var c, ws := Lower(name[0]), Words(name[1..]);
      if !InWord(name[0]) then ws
      else if |name| > 1 && InWord(name[1]) then [[c] + ws[0]] + ws[1..]
      else [[c]] + ws
  }

  /** A letter, large or small, or a digit. */
  predicate InWord(c: char) {
    'a' <= c <= 'z' || 'A' <= c <= 'Z' || '0' <= c <= '9'
  }

  lemma WordCharacters(c: char)
    ensures Alnum(Lower(c)) <==> InWord(c)
  {
  }

  function Join(ws: seq<string>): string {
    if ws == [] then "" else if |ws| == 1 then ws[0] else ws[0] + "-" + Join(ws[1..])
  }

  /** Before the dashes at the ends are stripped: one where the name begins or ends with something else. */
  function Dashed(name: string): string {
    (if name != "" && !InWord(name[0]) then "-" else "")
    + Join(Words(name))
    + if Words(name) != [] && !InWord(name[|name| - 1]) then "-" else ""
  }

  lemma JoinStarts(w: string, c: char, ws: seq<string>)
    ensures Join([[c] + w] + ws) == [c] + Join([w] + ws)
  {
    if ws != [] {
      assert ([[c] + w] + ws)[1..] == ws && ([w] + ws)[1..] == ws;
    }
  }

  lemma {:induction false} NoWords(name: string)
    requires Words(name) == [] && name != ""
    ensures !InWord(name[|name| - 1]) && !InWord(name[0])
  {
    if |name| > 1 {
      NoWords(name[1..]);
    }
  }

  lemma {:induction false} CollapseIsDashed(name: string)
    ensures Collapse(name) == Dashed(name)
  {
    if name != "" {
      CollapseIsDashed(name[1..]);
      if !InWord(name[0]) {
        DashBefore(name);
      } else if |name| == 1 {
        WordCharacters(name[0]);
        assert Join([[Lower(name[0])]]) == [Lower(name[0])];
      } else if InWord(name[1]) {
        NoDash(name);
      } else {
        DashAfter(name);
      }
    }
  }

  lemma WordGoesOn(name: string)
    requires |name| > 1 && InWord(name[0]) && InWord(name[1])
    ensures Words(name[1..]) != [] && Words(name) != []
    ensures Join(Words(name)) == [Lower(name[0])] + Join(Words(name[1..]))
  {
    var c, ws := Lower(name[0]), Words(name[1..]);
    JoinStarts(ws[0], c, ws[1..]);
    assert [ws[0]] + ws[1..] == ws;
  }

  lemma DashedGoesOn(name: string)
    requires |name| > 1 && InWord(name[0]) && InWord(name[1])
    ensures Dashed(name) == [Lower(name[0])] + Dashed(name[1..])
  {
    var rest := name[1..];
    WordGoesOn(name);
    assert name[|name| - 1] == rest[|rest| - 1];
  }

  lemma NoDash(name: string)
    requires |name| > 1 && InWord(name[0]) && InWord(name[1]) && Collapse(name[1..]) == Dashed(name[1..])
    ensures Collapse(name) == Dashed(name)
  {
    WordCharacters(name[0]);
    DashedGoesOn(name);
  }

  lemma DashBefore(name: string)
    requires name != "" && !InWord(name[0]) && Collapse(name[1..]) == Dashed(name[1..])
    ensures Collapse(name) == Dashed(name)
  {
    var rest, ws := name[1..], Words(name[1..]);
    WordCharacters(name[0]);
    assert Words(name) == ws;
    if rest != "" {
      assert name[|name| - 1] == rest[|rest| - 1];
      WordCharacters(rest[0]);
      assert Collapse(name) == if InWord(rest[0]) then "-" + Collapse(rest) else Collapse(rest);
    }
  }

  lemma DashAfter(name: string)
    requires |name| > 1 && InWord(name[0]) && !InWord(name[1]) && Collapse(name[1..]) == Dashed(name[1..])
    ensures Collapse(name) == Dashed(name)
  {
    var c, ws, rest := Lower(name[0]), Words(name[1..]), name[1..];
    WordCharacters(name[0]);
    assert name[|name| - 1] == rest[|rest| - 1];
    assert Words(name) == [[c]] + ws && Collapse(name) == [c] + Dashed(rest);
    if ws == [] {
      NoWords(rest);
      assert Join([[c]]) == [c];
    } else {
      assert ([[c]] + ws)[1..] == ws;
      assert Join([[c]] + ws) == [c] + "-" + Join(ws);
    }
  }

  /** A word of letters and digits. */
  predicate IsWord(w: string) {
    w != "" && forall i | 0 <= i < |w| :: Alnum(w[i])
  }

  lemma {:induction false} JoinEnds(ws: seq<string>)
    requires ws != [] && forall i | 0 <= i < |ws| :: IsWord(ws[i])
    ensures Join(ws) != "" && Join(ws)[0] != '-' && Join(ws)[|Join(ws)| - 1] != '-'
  {
    if |ws| > 1 {
      JoinEnds(ws[1..]);
    }
  }

  lemma {:induction false} WordsAreWords(name: string)
    ensures forall i | 0 <= i < |Words(name)| :: IsWord(Words(name)[i])
  {
    if name != "" {
      WordsAreWords(name[1..]);
    }
  }

  lemma StripsRight(s: string)
    requires s != "" && s[|s| - 1] != '-'
    ensures StripRight(s) == s && StripRight(s + "-") == s
  {
    assert (s + "-")[..|s|] == s;
  }

  lemma StripsLeft(s: string)
    requires s != "" && s[0] != '-'
    ensures StripLeft(s) == s && StripLeft("-" + s) == s
  {
    assert ("-" + s)[1..] == s;
  }

  lemma Strips(s: string, before: string, after: string)
    requires s != "" && s[0] != '-' && s[|s| - 1] != '-' && before in {"", "-"} && after in {"", "-"}
    ensures StripLeft(StripRight(before + s + after)) == s
  {
    StripsRight(before + s);
    StripsLeft(s);
    assert after == "" ==> before + s + after == before + s;
    assert before == "" ==> before + s == s;
  }

  /** A slug is the words of the name with one dash between them. */
  lemma SlugIsWords(name: string)
    ensures Slug(name) == Join(Words(name))
  {
    CollapseIsDashed(name);
    WordsAreWords(name);
    var before := if name != "" && !Alnum(Lower(name[0])) then "-" else "";
    if Words(name) != [] {
      JoinEnds(Words(name));
      Strips(Join(Words(name)), before, if !Alnum(Lower(name[|name| - 1])) then "-" else "");
    } else {
      assert Dashed(name) == before;
      assert "-"[..0] == "";
    }
  }

  // ------------------------------------------------------------ numbered names

  predicate Digits(s: string) {
    forall i | 0 <= i < |s| :: '0' <= s[i] <= '9'
  }

  /** str(n) */
  function Decimal(n: nat): (s: string)
    ensures s != "" && Digits(s)
  {
    var digit := [(n % 10 + 48) as char];
    if n < 10 then digit else Decimal(n / 10) + digit
  }

  function Value(s: string): int {
    if s == "" then 0 else Value(s[..|s| - 1]) * 10 + (s[|s| - 1] as int - 48)
  }

  lemma {:induction false} ValueOfDecimal(n: nat)
    ensures Value(Decimal(n)) == n
  {
    if n >= 10 {
      ValueOfDecimal(n / 10);
      assert Decimal(n)[..|Decimal(n)| - 1] == Decimal(n / 10);
    } else {
      assert Decimal(n)[..0] == "";
    }
  }

  lemma {:induction false} CollapseDigits(d: string)
    requires Digits(d)
    ensures Collapse(d) == d
  {
    if d != "" {
      CollapseDigits(d[1..]);
    }
  }

  lemma CollapseCons(c: char, s: string)
    ensures Collapse([c] + s) ==
            if Alnum(Lower(c)) then [Lower(c)] + Collapse(s)
            else if s != "" && !Alnum(Lower(s[0])) then Collapse(s)
            else "-" + Collapse(s)
  {
    assert ([c] + s)[1..] == s;
  }

  /** Trailing digits after a space become one more dash-separated word. */
  lemma {:induction false} CollapseNumbered(a: string, d: string)
    requires d != "" && Digits(d)
    ensures Collapse(a + " " + d) == StripRight(Collapse(a)) + "-" + d
  {
    if a == "" {
      assert "" + " " + d == [' '] + d;
      CollapseCons(' ', d);
      CollapseDigits(d);
    } else {
      var c, rest := a[0], a[1..];
      CollapseNumbered(rest, d);
      assert a == [c] + rest && a + " " + d == [c] + (rest + " " + d);
      CollapseCons(c, rest);
      CollapseCons(c, rest + " " + d);
      assert (rest + " " + d)[0] == if rest == "" then ' ' else rest[0];
      if Alnum(Lower(c)) {
        LetterBefore(c, rest, d);
      } else if rest == "" {
        DashAlone();
      } else if Alnum(Lower(rest[0])) {
        DashInFront(rest, d);
      }
    }
  }

  lemma LetterBefore(c: char, rest: string, d: string)
    requires Alnum(Lower(c))
    ensures StripRight([Lower(c)] + Collapse(rest)) + "-" + d == [Lower(c)] + (StripRight(Collapse(rest)) + "-" + d)
  {
    StripRightCons(Lower(c), Collapse(rest));
    assert [Lower(c)] + StripRight(Collapse(rest)) + "-" + d == [Lower(c)] + (StripRight(Collapse(rest)) + "-" + d);
  }

  lemma DashInFront(rest: string, d: string)
    requires rest != "" && Alnum(Lower(rest[0]))
    ensures StripRight("-" + Collapse(rest)) + "-" + d == "-" + (StripRight(Collapse(rest)) + "-" + d)
  {
    CollapseShape(rest);
    StripRightKeepsFirst(Collapse(rest));
    StripRightCons('-', Collapse(rest));
    assert "-" + StripRight(Collapse(rest)) + "-" + d == "-" + (StripRight(Collapse(rest)) + "-" + d);
  }

  lemma DashAlone()
    ensures StripRight("-" + "") == StripRight("")
  {
    assert ("-" + "")[..0] == "";
  }

  lemma {:induction false} StripRightCons(c: char, s: string)
    ensures StripRight([c] + s) == if StripRight(s) == "" && c == '-' then "" else [c] + StripRight(s)
  {
    if s == "" {
      assert [c] + s == [c];
      assert [c][..0] == "";
    } else if s[|s| - 1] == '-' {
      assert ([c] + s)[..|s|] == [c] + s[..|s| - 1];
      StripRightCons(c, s[..|s| - 1]);
    }
  }

  lemma {:induction false} StripRightKeepsFirst(s: string)
    ensures s != "" && s[0] != '-' ==> StripRight(s) != ""
  {
    if s != "" && s[|s| - 1] == '-' {
      StripRightKeepsFirst(s[..|s| - 1]);
    }
  }

  lemma {:induction false} StripLeftAppend(a: string, d: string)
    requires d != "" && Digits(d)
    ensures StripLeft(a + "-" + d) == if StripLeft(a) == "" then d else StripLeft(a) + "-" + d
  {
    var whole := a + "-" + d;
    if a == "" {
      assert whole[1..] == d;
    } else if a[0] == '-' {
      assert whole[1..] == a[1..] + "-" + d;
      StripLeftAppend(a[1..], d);
    }
  }

  lemma {:induction false} StripRightNumber(a: string, d: string)
    requires d != "" && Digits(d)
    ensures StripRight(a + "-" + d) == a + "-" + d
  {
    var whole := a + "-" + d;
    assert whole[|whole| - 1] == d[|d| - 1];
  }

  lemma SlugNumbered(a: string, n: nat)
    ensures Slug(a + " " + Decimal(n)) ==
            if Slug(a) == "" then Decimal(n) else Slug(a) + "-" + Decimal(n)
  {
    var d := Decimal(n);
    CollapseNumbered(a, d);
    StripRightNumber(StripRight(Collapse(a)), d);
    StripLeftAppend(StripRight(Collapse(a)), d);
  }

  /** Numbering a name yields infinitely many different slugs. */
  lemma SlugNumberedInjective(a: string, m: nat, n: nat)
    requires Slug(a + " " + Decimal(m)) == Slug(a + " " + Decimal(n))
    ensures m == n
  {
    SlugNumbered(a, m);
    SlugNumbered(a, n);
    var p := if Slug(a) == "" then "" else Slug(a) + "-";
    assert p + Decimal(m) == p + Decimal(n);
    assert (p + Decimal(m))[|p|..] == Decimal(m) && (p + Decimal(n))[|p|..] == Decimal(n);
    ValueOfDecimal(m);
    ValueOfDecimal(n);
  }
}
