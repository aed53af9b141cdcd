/**
 * `pipe` and `highlight` from src/utils.ts (and its JavaScript twin
 * src/utils.js). The timer-driven helpers of those files are not modelled.
 */
module Utils {
  import opened Wrappers
  import opened Strings

  /** `pipe(...fns)(x)`: `fns.reduce((y, f) => f(y), x)`. */
  function Pipe<T>(fns: seq<T -> T>, x: T): T {
    if fns == [] then x else Pipe(fns[1..], fns[0](x))
  }

  /** The empty pipe is the identity and a pipe of two applies them left to right. */
  lemma PipeBasics<T>(f: T -> T, g: T -> T, x: T)
    ensures Pipe([], x) == x
    ensures Pipe([f], x) == f(x)
    ensures Pipe([f, g], x) == g(f(x))
  {
    assert [f, g][1..] == [g];
    assert [g][1..] == [];
    assert [f][1..] == [];
    assert Pipe([f, g], x) == Pipe([g], f(x));
  }

  /** Piping a concatenation pipes the first list, then the second. */
  lemma {:induction false} PipeAppend<T>(fs: seq<T -> T>, gs: seq<T -> T>, x: T)
    ensures Pipe(fs + gs, x) == Pipe(gs, Pipe(fs, x))
  {
    if fs == [] {
      assert fs + gs == gs;
    } else {
      assert (fs + gs)[1..] == fs[1..] + gs;
      PipeAppend(fs[1..], gs, fs[0](x));
    }
  }

  const OpenTag := "<span class=\"hl\">"
  const CloseTag := "</span>"

  /** `a` and `b` are equal ignoring (ASCII) case, as the `i` flag compares. */
  predicate SameIgnoringCase(a: string, b: string) {
    Lower(a) == Lower(b)
  }

  /** A case-insensitive occurrence of `hl` starts at the front of `s`. */
  predicate StartsWithIgnoringCase(s: string, hl: string) {
    |hl| <= |s| && SameIgnoringCase(s[..|hl|], hl)
  }

  /**
   * `s.replace(new RegExp(hl, 'gi'), '<span class="hl">$&</span>')` for a
   * literal, non-empty term: scanning left to right, each case-insensitive
   * occurrence is wrapped as it was written and scanning resumes after it.
   */
  function WrapAll(s: string, hl: string): string
    requires hl != ""
  {
    if |s| < |hl| then s
    else if SameIgnoringCase(s[..|hl|], hl) then OpenTag + s[..|hl|] + CloseTag + WrapAll(s[|hl|..], hl)
    else [s[0]] + WrapAll(s[1..], hl)
  }

  /** `highlight(str, hl)`, with `None` for `undefined`. */
  function Highlight(str: string, hl: Option<string>): string {
    if hl.None? || hl.value == "" then str
    else if !Contains(Lower(str), Lower(hl.value)) then str
    else WrapAll(str, hl.value)
  }

  /** A falsy term (undefined or empty) leaves the string alone. */
  lemma HighlightFalsyTerm(str: string, hl: Option<string>)
    requires hl.None? || hl == Some("")
    ensures Highlight(str, hl) == str
  {
  }

  /** Lower-casing commutes with taking a slice. */
  lemma LowerSlice(s: string, i: int, j: int)
    requires 0 <= i <= j <= |s|
    ensures Lower(s[i..j]) == Lower(s)[i..j]
  {
  }

  /** Without a case-insensitive occurrence, wrapping changes nothing. */
  lemma {:induction false} WrapAllNoOccurrence(s: string, hl: string)
    requires hl != ""
    requires !Contains(Lower(s), Lower(hl))
    ensures WrapAll(s, hl) == s
    decreases |s|
  {
    if |s| >= |hl| {
      LowerSlice(s, 0, |hl|);
      assert !OccursAt(Lower(s), Lower(hl), 0);
      NoOccurrenceInTail(s, hl);
      WrapAllNoOccurrence(s[1..], hl);
    }
  }

  lemma NoOccurrenceInTail(s: string, hl: string)
    requires s != [] && !Contains(Lower(s), Lower(hl))
    ensures !Contains(Lower(s[1..]), Lower(hl))
  {
    if Contains(Lower(s[1..]), Lower(hl)) {
      var i :| 0 <= i <= |s[1..]| && OccursAt(Lower(s[1..]), Lower(hl), i);
      assert Lower(s[1..]) == Lower(s)[1..];
      assert Lower(s)[i + 1..i + 1 + |Lower(hl)|] == Lower(s[1..])[i..i + |Lower(hl)|];
      assert OccursAt(Lower(s), Lower(hl), i + 1);
    }
  }

  /**
   * The early return taken when `str` has no case-insensitive occurrence
   * agrees with the replacement: `highlight` is `WrapAll` for every non-empty term.
   */
  lemma HighlightIsWrapAll(str: string, hl: string)
    requires hl != ""
    ensures Highlight(str, Some(hl)) == WrapAll(str, hl)
  {
    if !Contains(Lower(str), Lower(hl)) {
      WrapAllNoOccurrence(str, hl);
    }
  }

  /** Removes every `OpenTag` and `CloseTag` from `s`. */
  function StripTags(s: string): string {
    if s == [] then []
    else if |OpenTag| <= |s| && s[..|OpenTag|] == OpenTag then StripTags(s[|OpenTag|..])
    else if |CloseTag| <= |s| && s[..|CloseTag|] == CloseTag then StripTags(s[|CloseTag|..])
    else [s[0]] + StripTags(s[1..])
  }

  predicate NoAngle(s: string) {
    forall i :: 0 <= i < |s| ==> s[i] != '<'
  }

  /** Text without `<` passes through `StripTags` untouched, before whatever follows. */
  lemma {:induction false} StripPlain(m: string, rest: string)
    requires NoAngle(m)
    ensures StripTags(m + rest) == m + StripTags(rest)
    decreases |m|
  {
    if m != [] {
      assert (m + rest)[0] == '<' ==> false;
      assert OpenTag[0] == '<' && CloseTag[0] == '<';
      assert (m + rest)[1..] == m[1..] + rest;
      StripPlain(m[1..], rest);
    } else {
      assert m + rest == rest;
    }
  }

  lemma StripOpen(rest: string)
    ensures StripTags(OpenTag + rest) == StripTags(rest)
  {
    assert (OpenTag + rest)[..|OpenTag|] == OpenTag;
    assert (OpenTag + rest)[|OpenTag|..] == rest;
  }

  lemma StripClose(rest: string)
    ensures StripTags(CloseTag + rest) == StripTags(rest)
  {
    var c := CloseTag + rest;
    assert c[..|CloseTag|] == CloseTag;
    assert |OpenTag| <= |c| ==> c[..|OpenTag|] != OpenTag by {
      if |OpenTag| <= |c| {
        assert c[..|OpenTag|][1] == '/';
      }
    }
    assert c[|CloseTag|..] == rest;
  }

  /** One wrapped occurrence strips back to its text. */
  lemma StripWrapped(m: string, rest: string)
    requires NoAngle(m)
    ensures StripTags(OpenTag + m + CloseTag + rest) == m + StripTags(rest)
  {
    assert OpenTag + m + CloseTag + rest == OpenTag + (m + (CloseTag + rest));
    StripOpen(m + (CloseTag + rest));
    StripPlain(m, CloseTag + rest);
    StripClose(rest);
  }

  /**
   * Removing the inserted tags gives back the original string, whose casing is
   * kept, for strings that contain no `<` of their own.
   */
  lemma {:induction false} StripWrapAll(s: string, hl: string)
    requires hl != "" && NoAngle(s)
    ensures StripTags(WrapAll(s, hl)) == s
    decreases |s|
  {
    if |s| < |hl| {
      StripPlain(s, []);
      assert s + [] == s;
    } else if SameIgnoringCase(s[..|hl|], hl) {
      StripWrapped(s[..|hl|], WrapAll(s[|hl|..], hl));
      StripWrapAll(s[|hl|..], hl);
      assert s[..|hl|] + s[|hl|..] == s;
    } else {
      StripPlain([s[0]], WrapAll(s[1..], hl));
      StripWrapAll(s[1..], hl);
      assert [s[0]] + s[1..] == s;
    }
  }

  /** Highlighting and then removing the tags recovers `str`, whatever the term. */
  lemma HighlightRoundTrip(str: string, hl: Option<string>)
    requires NoAngle(str)
    ensures StripTags(Highlight(str, hl)) == str
  {
    if hl.None? || hl.value == "" || !Contains(Lower(str), Lower(hl.value)) {
      StripPlain(str, []);
      assert str + [] == str;
    } else {
      StripWrapAll(str, hl.value);
    }
  }
}
