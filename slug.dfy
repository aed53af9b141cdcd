/**
 * The title-to-URL chain of `handleTitle` in src/components/authored.tsx
 * (and its twin src/components/authored.js):
 *   toLowerCase, then replace(/\s+/g, '-'), replace(/[^\w-]+/g, ''),
 *   replace(/--+/g, '-'), replace(/^-+/, ''), replace(/-+$/, '').
 */
module Authored {
  import opened Strings
  import opened Types

  /** `replace(/\s+/g, '-')`: every maximal run of whitespace becomes one `-`. */
  function Dashify(s: string): string {
    if s == [] then []
    else if IsSpace(s[0]) && |s| > 1 && IsSpace(s[1]) then Dashify(s[1..])
    else if IsSpace(s[0]) then ['-'] + Dashify(s[1..])
    else [s[0]] + Dashify(s[1..])
  }

  predicate IsWordOrDash(c: char) { IsWordChar(c) || c == '-' }

  /** `replace(/[^\w-]+/g, '')`: drops everything but `[A-Za-z0-9_-]`. */
  function KeepWordChars(s: string): string {
    Filter(IsWordOrDash, s)
  }

  /** `replace(/--+/g, '-')`: every run of dashes becomes a single dash. */
  function Squeeze(s: string): string {
    if |s| < 2 then s
    else if s[0] == '-' && s[1] == '-' then Squeeze(s[1..])
    else [s[0]] + Squeeze(s[1..])
  }

  /** `replace(/^-+/, '')`. */
  function TrimStart(s: string): string {
    if s != [] && s[0] == '-' then TrimStart(s[1..]) else s
  }

  /** `replace(/-+$/, '')`. */
  function TrimEnd(s: string): string {
    if s != [] && s[|s| - 1] == '-' then TrimEnd(s[..|s| - 1]) else s
  }

  function Slug(title: string): string {
    TrimEnd(TrimStart(Squeeze(KeepWordChars(Dashify(Lower(title))))))
  }

  /** The characters a slug may hold: `[a-z0-9_-]`. */
  predicate SlugChar(c: char) { IsLowerLetter(c) || IsDigit(c) || c == '_' || c == '-' }

  predicate AllSlugChars(s: string) { forall i :: 0 <= i < |s| ==> SlugChar(s[i]) }

  predicate NoDoubleDash(s: string) { forall i :: 0 <= i < |s| - 1 ==> !(s[i] == '-' && s[i + 1] == '-') }

  predicate NoEdgeDash(s: string) { s != [] ==> s[0] != '-' && s[|s| - 1] != '-' }

  /** The shape every slug has. */
  predicate IsSlug(s: string) { AllSlugChars(s) && NoDoubleDash(s) && NoEdgeDash(s) }

  predicate NoUpper(s: string) { forall i :: 0 <= i < |s| ==> !IsUpper(s[i]) }

  predicate NoSpace(s: string) { forall i :: 0 <= i < |s| ==> !IsSpace(s[i]) }

  // Step-by-step facts about the chain.

  lemma {:induction false} DashifyKeepsNoUpper(s: string)
    requires NoUpper(s)
    ensures NoUpper(Dashify(s)) && NoSpace(Dashify(s))
  {
    if s != [] {
      DashifyKeepsNoUpper(s[1..]);
    }
  }

  lemma KeepWordCharsSlugChars(s: string)
    requires NoUpper(s)
    ensures AllSlugChars(KeepWordChars(s))
  {
    var r := KeepWordChars(s);
    forall i | 0 <= i < |r| ensures SlugChar(r[i]) {
      assert IsWordOrDash(r[i]);
      assert r[i] in s;
    }
  }

  /** `Squeeze` keeps the characters it is given and leaves no `--`. */
  lemma {:induction false} SqueezeShape(s: string)
    ensures AllSlugChars(s) ==> AllSlugChars(Squeeze(s))
    ensures NoDoubleDash(Squeeze(s))
    ensures |s| > 0 ==> |Squeeze(s)| > 0 && Squeeze(s)[0] == s[0]
  {
    if |s| >= 2 {
      SqueezeShape(s[1..]);
    }
  }

  /** The characters of a sub-slice of a string. */
  lemma SliceChars(s: string, i: int, j: int)
    requires 0 <= i <= j <= |s| && AllSlugChars(s)
    ensures AllSlugChars(s[i..j])
  {
    assert forall k :: 0 <= k < j - i ==> s[i..j][k] == s[i + k];
  }

  lemma {:induction false} TrimStartShape(s: string)
    ensures exists k :: 0 <= k <= |s| && TrimStart(s) == s[k..]
    ensures TrimStart(s) != [] ==> TrimStart(s)[0] != '-'
  {
    if s != [] && s[0] == '-' {
      TrimStartShape(s[1..]);
      var k :| 0 <= k <= |s[1..]| && TrimStart(s[1..]) == s[1..][k..];
      assert s[1..][k..] == s[k + 1..];
    } else {
      assert TrimStart(s) == s[0..];
    }
  }

  lemma {:induction false} TrimEndShape(s: string)
    ensures exists k :: 0 <= k <= |s| && TrimEnd(s) == s[..k]
    ensures TrimEnd(s) != [] ==> TrimEnd(s)[|TrimEnd(s)| - 1] != '-'
  {
    if s != [] && s[|s| - 1] == '-' {
      TrimEndShape(s[..|s| - 1]);
      var k :| 0 <= k <= |s[..|s| - 1]| && TrimEnd(s[..|s| - 1]) == s[..|s| - 1][..k];
      assert s[..|s| - 1][..k] == s[..k];
    } else {
      assert TrimEnd(s) == s[..|s|];
    }
  }

  /** A slice of a string without `--` has no `--` either. */
  lemma SliceNoDoubleDash(s: string, i: int, j: int)
    requires 0 <= i <= j <= |s| && NoDoubleDash(s)
    ensures NoDoubleDash(s[i..j])
  {
    forall k | 0 <= k < j - i - 1 ensures !(s[i..j][k] == '-' && s[i..j][k + 1] == '-') {
      assert s[i..j][k] == s[i + k] && s[i..j][k + 1] == s[i + k + 1];
    }
  }

  /** Every slug consists of `[a-z0-9_-]`, has no `--` and no dash at either end. */
  lemma SlugShape(title: string)
    ensures IsSlug(Slug(title))
  {
    var l := Lower(title);
    assert NoUpper(l);
    DashifyKeepsNoUpper(l);
    var d := Dashify(l);
    KeepWordCharsSlugChars(d);
    var w := KeepWordChars(d);
    SqueezeShape(w);
    var q := Squeeze(w);
    TrimStartShape(q);
    var k1 :| 0 <= k1 <= |q| && TrimStart(q) == q[k1..];
    SliceChars(q, k1, |q|);
    SliceNoDoubleDash(q, k1, |q|);
    var t := TrimStart(q);
    TrimEndShape(t);
    var k2 :| 0 <= k2 <= |t| && TrimEnd(t) == t[..k2];
    SliceChars(t, 0, k2);
    SliceNoDoubleDash(t, 0, k2);
    assert t[..k2] == t[0..k2];
    var r := TrimEnd(t);
    if r != [] {
      assert r[0] == t[0];
    }
  }

  // Each step is the identity on a slug, hence idempotence.

  lemma LowerOfSlug(s: string)
    requires AllSlugChars(s)
    ensures Lower(s) == s
  {
  }

  lemma {:induction false} DashifyOfSlug(s: string)
    requires AllSlugChars(s)
    ensures Dashify(s) == s
  {
    if s != [] {
      assert !IsSpace(s[0]);
      SliceChars(s, 1, |s|);
      DashifyOfSlug(s[1..]);
    }
  }

  lemma KeepWordCharsOfSlug(s: string)
    requires AllSlugChars(s)
    ensures KeepWordChars(s) == s
  {
    FilterAll(IsWordOrDash, s);
  }

  lemma {:induction false} SqueezeOfNoDoubleDash(s: string)
    requires NoDoubleDash(s)
    ensures Squeeze(s) == s
  {
    if |s| >= 2 {
      SliceNoDoubleDash(s, 1, |s|);
      SqueezeOfNoDoubleDash(s[1..]);
    }
  }

  /** Slugging a slug gives it back: `slug(slug(x)) == slug(x)`. */
  lemma SlugIdempotent(title: string)
    ensures Slug(Slug(title)) == Slug(title)
  {
    var s := Slug(title);
    SlugShape(title);
    LowerOfSlug(s);
    DashifyOfSlug(s);
    KeepWordCharsOfSlug(s);
    SqueezeOfNoDoubleDash(s);
  }

  // The word characters survive every step; everything else is dropped or becomes `-`.

  function WordChars(s: string): string { Filter(IsWordChar, s) }

  lemma {:induction false} DashifyWordChars(s: string)
    ensures WordChars(Dashify(s)) == WordChars(s)
  {
    if s != [] {
      DashifyWordChars(s[1..]);
      if IsSpace(s[0]) && |s| > 1 && IsSpace(s[1]) {
      } else if IsSpace(s[0]) {
        FilterAppend(IsWordChar, ['-'], Dashify(s[1..]));
      } else {
        FilterAppend(IsWordChar, [s[0]], Dashify(s[1..]));
      }
    }
  }

  lemma {:induction false} KeepWordCharsWordChars(s: string)
    ensures WordChars(KeepWordChars(s)) == WordChars(s)
  {
    FilterFilterWeaker(IsWordOrDash, IsWordChar, s);
  }

  lemma {:induction false} SqueezeWordChars(s: string)
    ensures WordChars(Squeeze(s)) == WordChars(s)
  {
    if |s| >= 2 {
      SqueezeWordChars(s[1..]);
      FilterAppend(IsWordChar, [s[0]], s[1..]);
      assert [s[0]] + s[1..] == s;
      if !(s[0] == '-' && s[1] == '-') {
        FilterAppend(IsWordChar, [s[0]], Squeeze(s[1..]));
      }
    }
  }

  lemma {:induction false} TrimStartWordChars(s: string)
    ensures WordChars(TrimStart(s)) == WordChars(s)
  {
    if s != [] && s[0] == '-' {
      TrimStartWordChars(s[1..]);
    }
  }

  lemma {:induction false} TrimEndWordChars(s: string)
    ensures WordChars(TrimEnd(s)) == WordChars(s)
  {
    if s != [] && s[|s| - 1] == '-' {
      TrimEndWordChars(s[..|s| - 1]);
      FilterAppend(IsWordChar, s[..|s| - 1], [s[|s| - 1]]);
      assert s[..|s| - 1] + [s[|s| - 1]] == s;
    }
  }

  /** The word characters of the slug are those of the title, lower-cased, in order. */
  lemma SlugWordChars(title: string)
    ensures WordChars(Slug(title)) == WordChars(Lower(title))
  {
    var l := Lower(title);
    DashifyWordChars(l);
    KeepWordCharsWordChars(Dashify(l));
    SqueezeWordChars(KeepWordChars(Dashify(l)));
    TrimStartWordChars(Squeeze(KeepWordChars(Dashify(l))));
    TrimEndWordChars(TrimStart(Squeeze(KeepWordChars(Dashify(l)))));
  }

  /**
   * The slug is empty exactly when the title has no word character: a title of
   * whitespace or punctuation only gives the empty slug.
   */
  lemma SlugEmptyIff(title: string)
    ensures Slug(title) == [] <==> (forall i :: 0 <= i < |title| ==> !IsWordChar(title[i]))
  {
    var s := Slug(title);
    SlugShape(title);
    SlugWordChars(title);
    if s != [] {
      assert IsWordChar(s[0]);
      assert s[0] in WordChars(s);
      var c := WordChars(Lower(title))[0];
      assert c in Lower(title);
      var i :| 0 <= i < |title| && Lower(title)[i] == c;
      assert IsWordChar(title[i]);
    } else {
      assert WordChars(Lower(title)) == [];
      forall i | 0 <= i < |title| ensures !IsWordChar(title[i]) {
        if IsWordChar(title[i]) {
          assert IsWordChar(Lower(title)[i]);
          assert Lower(title)[i] in Lower(title);
          FilterKeeps(IsWordChar, Lower(title), i);
        }
      }
    }
  }

  lemma {:induction false} FilterKeeps(p: char -> bool, s: string, i: int)
    requires 0 <= i < |s| && p(s[i])
    ensures Filter(p, s) != []
  {
    if i > 0 {
      FilterKeeps(p, s[1..], i - 1);
    }
  }

  // Whitespace-separated words.

  predicate IsWord(w: string) { w != [] && forall i :: 0 <= i < |w| ==> IsWordChar(w[i]) }

  predicate IsSeparator(sep: string) { sep != [] && forall i :: 0 <= i < |sep| ==> IsSpace(sep[i]) }

  function LowerAll(ws: seq<string>): (r: seq<string>)
    ensures |r| == |ws|
    ensures forall i :: 0 <= i < |ws| ==> r[i] == Lower(ws[i])
  {
    if ws == [] then [] else [Lower(ws[0])] + LowerAll(ws[1..])
  }

  lemma {:induction false} DashifyPlain(a: string, rest: string)
    requires NoSpace(a)
    ensures Dashify(a + rest) == a + Dashify(rest)
  {
    if a != [] {
      assert (a + rest)[1..] == a[1..] + rest;
      DashifyPlain(a[1..], rest);
    } else {
      assert a + rest == rest;
    }
  }

  lemma {:induction false} DashifyRun(sep: string, rest: string)
    requires IsSeparator(sep)
    requires rest == [] || !IsSpace(rest[0])
    ensures Dashify(sep + rest) == ['-'] + Dashify(rest)
  {
    if |sep| > 1 {
      assert (sep + rest)[1..] == sep[1..] + rest;
      DashifyRun(sep[1..], rest);
    } else {
      assert (sep + rest)[1..] == rest;
    }
  }

  lemma WordLowered(w: string)
    requires IsWord(w)
    ensures IsWord(Lower(w)) && NoUpper(Lower(w)) && NoSpace(Lower(w))
  {
  }

  /** The words with the runs `seps[i]` between words `i` and `i + 1`. */
  function Spaced(ws: seq<string>, seps: seq<string>): string
    requires ws == [] ==> seps == []
    requires ws != [] ==> |seps| + 1 == |ws|
    decreases |ws|
  {
    if ws == [] then ""
    else if |ws| == 1 then ws[0]
    else ws[0] + seps[0] + Spaced(ws[1..], seps[1..])
  }

  /** An optional whitespace run before the first or after the last word. */
  predicate IsRun(s: string) { s == [] || IsSeparator(s) }

  /** After lower-casing, words and whitespace runs become the words joined by `-`. */
  lemma {:induction false} DashifySpaced(ws: seq<string>, seps: seq<string>)
    requires |ws| > 0 && |seps| + 1 == |ws|
    requires forall i :: 0 <= i < |ws| ==> IsWord(ws[i])
    requires forall i :: 0 <= i < |seps| ==> IsSeparator(seps[i])
    ensures Dashify(Lower(Spaced(ws, seps))) == Join(LowerAll(ws), "-")
    decreases |ws|
  {
    if |ws| == 1 {
      WordLowered(ws[0]);
      DashifyPlain(Lower(ws[0]), []);
      assert Lower(ws[0]) + [] == Lower(ws[0]);
    } else {
      var rest := Spaced(ws[1..], seps[1..]);
      assert Spaced(ws, seps) == ws[0] + seps[0] + rest;
      SpacedEnds(ws[1..], seps[1..]);
      DashifyCons(ws[0], seps[0], rest);
      DashifySpaced(ws[1..], seps[1..]);
      assert LowerAll(ws[1..]) == LowerAll(ws)[1..];
      assert Join(LowerAll(ws), "-") == Lower(ws[0]) + "-" + Join(LowerAll(ws[1..]), "-");
    }
  }

  /** A word, a whitespace run, then text starting with a word character. */
  lemma DashifyCons(w: string, sep: string, rest: string)
    requires IsWord(w) && IsSeparator(sep) && |rest| > 0 && IsWordChar(rest[0])
    ensures Dashify(Lower(w + sep + rest)) == Lower(w) + "-" + Dashify(Lower(rest))
  {
    LowerAppend(w + sep, rest);
    LowerAppend(w, sep);
    WordLowered(w);
    LowerOfRun(sep);
    var lr := Lower(rest);
    assert !IsSpace(lr[0]);
    calc {
      Dashify(Lower(w + sep + rest));
      Dashify(Lower(w) + sep + lr);
      { assert Lower(w) + sep + lr == Lower(w) + (sep + lr);
        DashifyPlain(Lower(w), sep + lr); }
      Lower(w) + Dashify(sep + lr);
      { DashifyRun(sep, lr); }
      Lower(w) + ['-'] + Dashify(lr);
    }
  }

  lemma LowerOfRun(s: string)
    requires IsRun(s)
    ensures Lower(s) == s
  {
    assert forall i :: 0 <= i < |s| ==> !IsUpper(s[i]);
  }

  /** Spaced words start and end with a word character. */
  lemma {:induction false} SpacedEnds(ws: seq<string>, seps: seq<string>)
    requires |ws| > 0 && |seps| + 1 == |ws|
    requires forall i :: 0 <= i < |ws| ==> IsWord(ws[i])
    ensures var t := Spaced(ws, seps); |t| > 0 && IsWordChar(t[0]) && IsWordChar(t[|t| - 1])
    decreases |ws|
  {
    if |ws| > 1 {
      SpacedEnds(ws[1..], seps[1..]);
      var rest := Spaced(ws[1..], seps[1..]);
      var t := ws[0] + seps[0] + rest;
      assert Spaced(ws, seps) == t;
      assert t[0] == ws[0][0] && t[|t| - 1] == rest[|rest| - 1];
    }
  }

  /** `Dashify` splits after a non-whitespace character. */
  lemma {:induction false} DashifyConcat(a: string, b: string)
    requires a == [] || !IsSpace(a[|a| - 1])
    ensures Dashify(a + b) == Dashify(a) + Dashify(b)
  {
    if a != [] {
      assert (a + b)[0] == a[0] && (a + b)[1..] == a[1..] + b;
      if |a| > 1 {
        assert (a + b)[1] == a[1];
        DashifyConcat(a[1..], b);
      } else {
        assert a[1..] == [] && a[1..] + b == b;
        assert Dashify(a) == [a[0]];
      }
    } else {
      assert a + b == b;
    }
  }

  /** Words of `[A-Za-z0-9_]` joined by `-` form a slug. */
  lemma {:induction false} JoinedWordsAreSlug(ws: seq<string>)
    requires forall i :: 0 <= i < |ws| ==> IsWord(ws[i]) && NoUpper(ws[i])
    ensures IsSlug(Join(ws, "-"))
    ensures |ws| > 0 ==> |Join(ws, "-")| > 0 && IsWordChar(Join(ws, "-")[0])
  {
    if |ws| > 1 {
      JoinedWordsAreSlug(ws[1..]);
      var w := ws[0];
      var rest := Join(ws[1..], "-");
      var j := w + "-" + rest;
      assert Join(ws, "-") == j;
      forall i | 0 <= i < |j| ensures SlugChar(j[i]) {
        if i < |w| { assert j[i] == w[i]; }
        else if i > |w| { assert j[i] == rest[i - |w| - 1]; }
      }
      forall i | 0 <= i < |j| - 1 ensures !(j[i] == '-' && j[i + 1] == '-') {
        if i + 1 < |w| { assert j[i] == w[i]; }
        else if i + 1 == |w| { assert j[i] == w[i]; }
        else if i == |w| { assert j[i + 1] == rest[0]; }
        else { assert j[i] == rest[i - |w| - 1] && j[i + 1] == rest[i - |w|]; }
      }
      assert j[|j| - 1] == rest[|rest| - 1];
      assert j[0] == w[0];
    }
  }

  /**
   * A title of words separated by whitespace runs, each run its own, with
   * optional runs before and after, becomes the lower-cased words joined by
   * single dashes.
   */
  lemma SlugOfWords(lead: string, ws: seq<string>, seps: seq<string>, trail: string)
    requires forall i :: 0 <= i < |ws| ==> IsWord(ws[i])
    requires ws == [] ==> seps == []
    requires ws != [] ==> |seps| + 1 == |ws|
    requires forall i :: 0 <= i < |seps| ==> IsSeparator(seps[i])
    requires IsRun(lead) && IsRun(trail)
    ensures Slug(lead + Spaced(ws, seps) + trail) == Join(LowerAll(ws), "-")
  {
    if ws == [] {
      assert lead + Spaced(ws, seps) + trail == lead + trail;
      BlankSlug(lead + trail);
    } else {
      DashifyTitle(lead, ws, seps, trail);
      forall i | 0 <= i < |ws| ensures IsWord(LowerAll(ws)[i]) && NoUpper(LowerAll(ws)[i]) {
        WordLowered(ws[i]);
      }
      JoinedWordsAreSlug(LowerAll(ws));
      EdgeDashes(EdgeDash(lead), Join(LowerAll(ws), "-"), EdgeDash(trail));
    }
  }

  /** The dash an optional run turns into. */
  function EdgeDash(run: string): string { if run == [] then "" else "-" }

  lemma DashifyTitle(lead: string, ws: seq<string>, seps: seq<string>, trail: string)
    requires |ws| > 0 && |seps| + 1 == |ws|
    requires forall i :: 0 <= i < |ws| ==> IsWord(ws[i])
    requires forall i :: 0 <= i < |seps| ==> IsSeparator(seps[i])
    requires IsRun(lead) && IsRun(trail)
    ensures Dashify(Lower(lead + Spaced(ws, seps) + trail)) == EdgeDash(lead) + Join(LowerAll(ws), "-") + EdgeDash(trail)
  {
    LowerTitle(lead, Spaced(ws, seps), trail);
    SpacedEnds(ws, seps);
    DashifySpaced(ws, seps);
    var t := Spaced(ws, seps);
    assert Lower(t)[0] == LowerChar(t[0]) && Lower(t)[|t| - 1] == LowerChar(t[|t| - 1]);
    DashifyFramed(lead, Lower(Spaced(ws, seps)), trail, Join(LowerAll(ws), "-"));
  }

  lemma DashifyFramed(lead: string, mid: string, trail: string, j: string)
    requires |mid| > 0 && IsWordChar(mid[0]) && IsWordChar(mid[|mid| - 1]) && Dashify(mid) == j
    requires IsRun(lead) && IsRun(trail)
    ensures Dashify(lead + (mid + trail)) == EdgeDash(lead) + j + EdgeDash(trail)
  {
    DashifyTail(mid, j, trail);
    assert (mid + trail)[0] == mid[0];
    DashifyLead(lead, mid + trail, j + EdgeDash(trail));
    assert EdgeDash(lead) + (j + EdgeDash(trail)) == EdgeDash(lead) + j + EdgeDash(trail);
  }

  lemma DashifyLead(lead: string, r: string, k: string)
    requires IsRun(lead) && |r| > 0 && !IsSpace(r[0]) && Dashify(r) == k
    ensures Dashify(lead + r) == EdgeDash(lead) + k
  {
    if lead != [] {
      DashifyRun(lead, r);
    } else {
      assert lead + r == r;
    }
  }

  lemma LowerTitle(lead: string, mid: string, trail: string)
    requires IsRun(lead) && IsRun(trail)
    ensures Lower(lead + mid + trail) == lead + (Lower(mid) + trail)
  {
    LowerAppend(lead + mid, trail);
    LowerAppend(lead, mid);
    LowerOfRun(lead);
    LowerOfRun(trail);
  }

  lemma DashifyTail(mid: string, j: string, trail: string)
    requires |mid| > 0 && IsWordChar(mid[|mid| - 1]) && Dashify(mid) == j
    requires IsRun(trail)
    ensures Dashify(mid + trail) == j + EdgeDash(trail)
  {
    DashifyConcat(mid, trail);
    if trail != [] {
      DashifyRun(trail, []);
      assert trail + [] == trail;
    }
  }

  /** An all-whitespace title has the empty slug. */
  lemma BlankSlug(s: string)
    requires IsRun(s)
    ensures Slug(s) == ""
  {
    LowerOfRun(s);
    if s != [] {
      DashifyRun(s, []);
      assert s + [] == s;
      assert Dashify(s) == "-";
      assert KeepWordChars("-") == "-";
    }
  }

  /** The steps after `Dashify` drop at most one dash at each end of a slug. */
  lemma EdgeDashes(l: string, j: string, t: string)
    requires IsSlug(j) && |j| > 0 && IsWordChar(j[0])
    requires l == "" || l == "-"
    requires t == "" || t == "-"
    ensures TrimEnd(TrimStart(Squeeze(KeepWordChars(l + j + t)))) == j
  {
    var d := l + j + t;
    assert d == l + (j + t);
    EdgedChars(l, j, t);
    EdgedNoDoubleDash(l, j, t);
    KeepWordCharsOfSlug(d);
    SqueezeOfNoDoubleDash(d);
    assert Squeeze(KeepWordChars(d)) == d;
    TrimLead(l, j + t);
    TrimTrail(j, t);
  }

  lemma EdgedChars(l: string, j: string, t: string)
    requires AllSlugChars(j) && (l == "" || l == "-") && (t == "" || t == "-")
    ensures AllSlugChars(l + j + t)
  {
    var d := l + j + t;
    forall i | 0 <= i < |d| ensures SlugChar(d[i]) {
      if |l| <= i < |l| + |j| { assert d[i] == j[i - |l|]; }
    }
  }

  lemma EdgedNoDoubleDash(l: string, j: string, t: string)
    requires NoDoubleDash(j) && |j| > 0 && j[0] != '-' && j[|j| - 1] != '-'
    requires (l == "" || l == "-") && (t == "" || t == "-")
    ensures NoDoubleDash(l + j + t)
  {
    var d := l + j + t;
    forall i | 0 <= i < |d| - 1 ensures !(d[i] == '-' && d[i + 1] == '-') {
      if i < |l| { assert d[i + 1] == j[0]; }
      else if i + 1 < |l| + |j| { assert d[i] == j[i - |l|] && d[i + 1] == j[i + 1 - |l|]; }
      else { assert d[i] == j[|j| - 1]; }
    }
  }

  lemma TrimLead(l: string, r: string)
    requires (l == "" || l == "-") && |r| > 0 && r[0] != '-'
    ensures TrimStart(l + r) == r
  {
    if l == "-" {
      assert (l + r)[0] == '-' && (l + r)[1..] == r;
    } else {
      assert l + r == r;
    }
  }

  lemma TrimTrail(j: string, t: string)
    requires (t == "" || t == "-") && |j| > 0 && j[|j| - 1] != '-'
    ensures TrimEnd(j + t) == j
  {
    if t == "-" {
      assert (j + t)[|j + t| - 1] == '-' && (j + t)[..|j + t| - 1] == j;
    } else {
      assert j + t == j;
    }
  }

  /** Neither trim touches a string without edge dashes. */
  lemma TrimsOfSlug(s: string)
    requires NoEdgeDash(s)
    ensures TrimStart(s) == s && TrimEnd(s) == s
  {
  }

  /** `setData({...props.data, title: event.target.value, url})`. */
  function SetTitle(data: Article, title: string): (r: Article)
    ensures r.title == title && r.url == Slug(title)
    ensures r.(title := data.title, url := data.url) == data
  {
    data.(title := title, url := Slug(title))
  }
}
