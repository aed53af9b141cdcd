/**
 * The contact page (src/pages/contact.tsx and its JavaScript twin
 * src/pages/contact.js): the `encode` form serialiser, the quick-fact
 * rotation run on every interval tick, and the form state that the submit
 * and change handlers replace.
 */
module Contact {
  import opened Wrappers
  import opened Strings
  import opened Uri

  // Objects with string keys, in insertion order.

  /**
   * A JavaScript object whose keys are strings, as its own enumerable
   * properties in `Object.keys` order.
   */
  type Object = seq<(string, string)>

  function Keys(o: Object): seq<string> {
    seq(|o|, i requires 0 <= i < |o| => o[i].0)
  }

  /** `o[k]`, `None` standing for an absent property. */
  function Get(o: Object, k: string): (r: Option<string>)
    ensures r.None? <==> k !in Keys(o)
  {
    if o == [] then None
    else if o[0].0 == k then assert Keys(o)[0] == k; Some(o[0].1)
    else
      assert Keys(o) == [o[0].0] + Keys(o[1..]);
      Get(o[1..], k)
  }

  ghost predicate UniqueKeys(o: Object) {
    forall i, j :: 0 <= i < j < |o| ==> o[i].0 != o[j].0
  }

  /**
   * `o[k] = v` on a fresh copy: an existing key keeps its place and takes the
   * new value; a new key goes to the end.
   */
  function Put(o: Object, k: string, v: string): (r: Object)
    ensures Get(r, k) == Some(v)
    ensures forall k' :: k' != k ==> Get(r, k') == Get(o, k')
  {
    if o == [] then [(k, v)]
    else if o[0].0 == k then [(k, v)] + o[1..]
    else [o[0]] + Put(o[1..], k, v)
  }

  /** Putting keeps the key order: a present key stays where it is, a new one is appended. */
  lemma {:induction false} PutKeys(o: Object, k: string, v: string)
    ensures k in Keys(o) ==> Keys(Put(o, k, v)) == Keys(o)
    ensures k !in Keys(o) ==> Keys(Put(o, k, v)) == Keys(o) + [k]
  {
    if o != [] {
      assert Keys(o) == [o[0].0] + Keys(o[1..]);
      if o[0].0 == k {
        assert Keys(Put(o, k, v)) == [k] + Keys(o[1..]);
      } else {
        PutKeys(o[1..], k, v);
        assert Keys(Put(o, k, v)) == [o[0].0] + Keys(Put(o[1..], k, v));
      }
    }
  }

  /** Putting never duplicates a key. */
  lemma PutUnique(o: Object, k: string, v: string)
    requires UniqueKeys(o)
    ensures UniqueKeys(Put(o, k, v))
  {
    PutKeys(o, k, v);
    var r := Put(o, k, v);
    assert forall i :: 0 <= i < |r| ==> r[i].0 == Keys(r)[i];
    assert forall i :: 0 <= i < |o| ==> o[i].0 == Keys(o)[i];
  }

  /** `{ ...base, ...src }`: the properties of `src` put into a copy of `base`, in order. */
  function Spread(base: Object, src: Object): Object
    decreases |src|
  {
    if src == [] then base else Spread(Put(base, src[0].0, src[0].1), src[1..])
  }

  /** Spreading into an object that has none of the source's keys appends them. */
  lemma {:induction false} SpreadKeys(base: Object, src: Object)
    requires forall i :: 0 <= i < |src| ==> src[i].0 !in Keys(base)
    requires UniqueKeys(src)
    ensures Keys(Spread(base, src)) == Keys(base) + Keys(src)
    decreases |src|
  {
    if src != [] {
      var k, tail := src[0].0, src[1..];
      var b := Put(base, k, src[0].1);
      SpreadStep(base, src);
      SpreadKeys(b, tail);
      KeysCons(src);
      assert Keys(base) + [k] + Keys(tail) == Keys(base) + ([k] + Keys(tail));
    }
  }

  /** One property of the source put into the base: what the rest of the spread needs. */
  lemma SpreadStep(base: Object, src: Object)
    requires src != []
    requires forall i :: 0 <= i < |src| ==> src[i].0 !in Keys(base)
    requires UniqueKeys(src)
    ensures var b := Put(base, src[0].0, src[0].1);
      && Keys(b) == Keys(base) + [src[0].0]
      && (forall i :: 0 <= i < |src[1..]| ==> src[1..][i].0 !in Keys(b))
      && UniqueKeys(src[1..])
  {
    var k, tail := src[0].0, src[1..];
    var b := Put(base, k, src[0].1);
    assert k !in Keys(base);
    PutKeys(base, k, src[0].1);
    forall i | 0 <= i < |tail| ensures tail[i].0 !in Keys(b) {
      assert tail[i] == src[i + 1];
      assert src[i + 1].0 != k && src[i + 1].0 !in Keys(base);
    }
    assert UniqueKeys(tail) by {
      forall i, j | 0 <= i < j < |tail| ensures tail[i].0 != tail[j].0 {
        assert tail[i] == src[i + 1] && tail[j] == src[j + 1];
      }
    }
  }

  lemma KeysCons(o: Object)
    requires o != []
    ensures Keys(o) == [o[0].0] + Keys(o[1..])
  {
  }

  // `encode`.

  /** One `key=value` segment, both halves escaped. */
  function Segment(p: (string, string)): string {
    EncodeComponent(p.0) + "=" + EncodeComponent(p.1)
  }

  function Segments(data: Object): (r: seq<string>)
    ensures |r| == |data|
  {
    if data == [] then [] else [Segment(data[0])] + Segments(data[1..])
  }

  /** `encode(data)`: the escaped segments in key order, joined by `&`. */
  function Encode(data: Object): string {
    Join(Segments(data), "&")
  }

  /** An empty object, and only an empty object, encodes to `""`. */
  lemma EncodeEmpty(data: Object)
    ensures Encode(data) == "" <==> data == []
  {
    if data != [] {
      JoinStartsWithFirst(Segments(data), "&");
      assert Segments(data)[0] == Segment(data[0]);
      assert '=' in Segments(data)[0];
    }
  }

  lemma JoinStartsWithFirst(parts: seq<string>, sep: string)
    requires |parts| > 0
    ensures |parts[0]| <= |Join(parts, sep)| && Join(parts, sep)[..|parts[0]|] == parts[0]
  {
    if |parts| > 1 {
      assert Join(parts, sep) == parts[0] + (sep + Join(parts[1..], sep));
    }
  }

  /** The segments of `encode(data)`: one per key, in key order. */
  lemma EncodeSegments(data: Object)
    requires data != []
    ensures Split(Encode(data), '&') == Segments(data)
    ensures forall i :: 0 <= i < |data| ==> Split(Encode(data), '&')[i] == Segment(data[i])
  {
    SegmentsNoAmp(data);
    SplitJoin(Segments(data), '&');
    SegmentsAt(data);
  }

  lemma {:induction false} SegmentsAt(data: Object)
    ensures forall i :: 0 <= i < |data| ==> Segments(data)[i] == Segment(data[i])
  {
    if data != [] {
      SegmentsAt(data[1..]);
    }
  }

  lemma {:induction false} SegmentsNoAmp(data: Object)
    ensures forall i :: 0 <= i < |data| ==> '&' !in Segments(data)[i]
  {
    if data != [] {
      SegmentsNoAmp(data[1..]);
      NoSeparatorsInComponent(data[0].0);
      NoSeparatorsInComponent(data[0].1);
    }
  }

  // Reading an encoded body back.

  /** A segment split at its first `=`, both halves percent-decoded. */
  function DecodeSegment(seg: string): Option<(string, string)> {
    var k := IndexOf(seg, '=');
    if k == |seg| then None
    else match (DecodeComponent(seg[..k]), DecodeComponent(seg[k + 1..]))
      case (Some(key), Some(value)) => Some((key, value))
      case _ => None
  }

  function DecodeSegments(segs: seq<string>): Option<Object> {
    if segs == [] then Some([])
    else match (DecodeSegment(segs[0]), DecodeSegments(segs[1..]))
      case (Some(p), Some(rest)) => Some([p] + rest)
      case _ => None
  }

  /** Splits a form body on `&`, then each segment on its first `=`. */
  function DecodeForm(body: string): Option<Object> {
    if body == "" then Some([]) else DecodeSegments(Split(body, '&'))
  }

  lemma SegmentRoundTrip(p: (string, string))
    ensures DecodeSegment(Segment(p)) == Some(p)
  {
    var k, v := EncodeComponent(p.0), EncodeComponent(p.1);
    NoSeparatorsInComponent(p.0);
    IndexOfAppend(k, '=', v);
    assert Segment(p) == k + ['='] + v;
    assert Segment(p)[..|k|] == k && Segment(p)[|k| + 1..] == v;
    ComponentRoundTrip(p.0);
    ComponentRoundTrip(p.1);
  }

  lemma {:induction false} SegmentsRoundTrip(data: Object)
    ensures DecodeSegments(Segments(data)) == Some(data)
  {
    if data != [] {
      SegmentRoundTrip(data[0]);
      assert Segments(data)[1..] == Segments(data[1..]);
      SegmentsRoundTrip(data[1..]);
      assert [data[0]] + data[1..] == data;
    }
  }

  /** Splitting on `&` and the first `=`, then percent-decoding, recovers the pairs. */
  lemma EncodeRoundTrip(data: Object)
    ensures DecodeForm(Encode(data)) == Some(data)
  {
    EncodeEmpty(data);
    if data != [] {
      EncodeSegments(data);
      SegmentsRoundTrip(data);
    }
  }

  // The quick facts.

  const QuickFacts: seq<string> := [Fact1, Fact2, Fact3, Fact4, Fact5]

  const Fact1 := "I am from <a href=\"https://en.wikipedia.org/wiki/Bulgaria\">Bulgaria</a>. Currently living in <a target=\"_blank\" rel=\"noopener noreferrer\" href=\"https://goo.gl/maps/yJQ6seGS793ykcXL7\">Varna</a>"
  const Fact2 := "My name is Veselin and it is pronounced like <a target=\"_blank\" rel=\"noopener noreferrer\" href=\"https://www.howtopronounce.com/veselin/\">this</a>"
  const Fact3 := "I enjoy remote lifestyle! It gives me freedom and I feel more focused on my work."
  const Fact4 := "I love JavaScript and everything related. Although I am working with React right now, I want to get in the Vue world as well. Also might try Svelte soon..."
  const Fact5 := "I have 3 years of professional experience. My focus is Frontend, but I am doing things quite well as Fullstack JS Developer. Node.js is my preferred choice for backend."

  /** The `fact` state: an index and the text shown. */
  datatype Fact = Fact(i: nat, text: string)

  const FirstFact := Fact(0, QuickFacts[0])

  ghost predicate FactValid(f: Fact) {
    f.i < |QuickFacts| && f.text == QuickFacts[f.i]
  }

  /** The body of the interval callback: the next fact, wrapping to the first after the last. */
  function NextFact(f: Fact): (r: Fact)
    ensures FactValid(r)
    ensures f.i < |QuickFacts| ==> r.i == (f.i + 1) % |QuickFacts|
    ensures f.i >= |QuickFacts| ==> r == FirstFact
  {
    if f.i >= |QuickFacts| - 1 then Fact(0, QuickFacts[0]) else Fact(f.i + 1, QuickFacts[f.i + 1])
  }

  function Ticks(f: Fact, n: nat): Fact
    decreases n
  {
    if n == 0 then f else Ticks(NextFact(f), n - 1)
  }

  lemma {:induction false} TicksIndex(f: Fact, n: nat)
    requires FactValid(f)
    ensures FactValid(Ticks(f, n)) && Ticks(f, n).i == (f.i + n) % |QuickFacts|
    decreases n
  {
    if n > 0 {
      var g := NextFact(f);
      assert g.i == (f.i + 1) % 5;
      TicksIndex(g, n - 1);
      ModStep(f.i, n - 1);
    }
  }

  lemma ModStep(a: nat, m: nat)
    requires a < 5
    ensures ((a + 1) % 5 + m) % 5 == (a + 1 + m) % 5
  {
    if a == 4 {
      assert (5 + m) % 5 == m % 5;
    }
  }

  /** The rotation is cyclic with period `quickFacts.length`, and no shorter. */
  lemma RotationPeriod(f: Fact, n: nat)
    requires FactValid(f)
    ensures Ticks(f, |QuickFacts|) == f
    ensures 0 < n < |QuickFacts| ==> Ticks(f, n) != f
  {
    TicksIndex(f, 5);
    var g := Ticks(f, 5);
    assert g.i == f.i;
    assert g.text == QuickFacts[f.i] == f.text;
    if 0 < n < 5 {
      TicksIndex(f, n);
      assert Ticks(f, n).i == (f.i + n) % 5 != f.i;
    }
  }

  // The form state and the submit body.

  const FormKeys: seq<string> := ["name", "email", "message"]

  const EmptyForm: Object := [("name", ""), ("email", ""), ("message", "")]

  /** A null value, as `encodeURIComponent` stringifies it. */
  function JsString(v: Option<string>): (r: string)
    ensures v.Some? ==> r == v.value
    ensures v.None? ==> r == "null"
  {
    match v
    case Some(s) => s
    case None => "null"
  }

  /** The object handed to `encode` on submit. */
  function SubmitObject(formName: Option<string>, recaptcha: Option<string>, form: Object): Object {
    Spread([("form-name", JsString(formName)), ("g-recaptcha-response", JsString(recaptcha))], form)
  }

  /** With the three form fields, the body keys come in the order the page sends them. */
  lemma SubmitKeys(formName: Option<string>, recaptcha: Option<string>, form: Object)
    requires Keys(form) == FormKeys
    ensures Keys(SubmitObject(formName, recaptcha, form)) == ["form-name", "g-recaptcha-response", "name", "email", "message"]
  {
    var base := [("form-name", JsString(formName)), ("g-recaptcha-response", JsString(recaptcha))];
    forall i | 0 <= i < |form| ensures form[i].0 !in Keys(base) {
      assert form[i].0 == FormKeys[i];
    }
    assert UniqueKeys(form) by {
      forall i, j | 0 <= i < j < |form| ensures form[i].0 != form[j].0 {
        assert form[i].0 == FormKeys[i] && form[j].0 == FormKeys[j];
      }
    }
    SpreadKeys(base, form);
  }

  /** `handleChange` on an object with the form's keys keeps those keys, in order. */
  lemma ChangeKeepsKeys(form: Object, name: string, value: string)
    requires Keys(form) == FormKeys && name in FormKeys
    ensures Keys(Put(form, name, value)) == FormKeys
  {
    PutKeys(form, name, value);
    assert Keys(form)[0] == "name" && Keys(form)[1] == "email" && Keys(form)[2] == "message";
  }

  /** The page's state: the fact shown, the form fields and the success flag. */
  class ContactPage {
    var fact: Fact
    var formState: Object
    var success: bool

    ghost predicate Valid()
      reads this
    {
      FactValid(fact)
    }

    constructor ()
      ensures fact == FirstFact && formState == EmptyForm && !success
      ensures Valid()
    {
      fact := Fact(0, QuickFacts[0]);
      formState := EmptyForm;
      success := false;
    }

    /** One interval tick. */
    method Tick()
      requires Valid()
      modifies this`fact
      ensures fact == NextFact(old(fact))
      ensures fact.i == (old(fact.i) + 1) % |QuickFacts|
      ensures Valid()
    {
      if fact.i >= |QuickFacts| - 1 {
        fact := Fact(0, QuickFacts[0]);
      } else {
        fact := Fact(fact.i + 1, QuickFacts[fact.i + 1]);
      }
    }

    /**
     * `handleSubmit`: the request body, and the state after the request
     * settles. `delivered` says whether the `fetch` promise resolved (any
     * HTTP status) rather than rejected.
     */
    method Submit(formName: Option<string>, recaptcha: Option<string>, delivered: bool) returns (body: string)
      modifies this`formState, this`success
      ensures body == Encode(SubmitObject(formName, recaptcha, old(formState)))
      ensures delivered ==> formState == EmptyForm && success
      ensures !delivered ==> formState == old(formState) && success == old(success)
    {
      body := Encode(SubmitObject(formName, recaptcha, formState));
      if delivered {
        formState := EmptyForm;
        success := true;
      }
    }

    /** `handleChange`: set the field the input names. */
    method HandleChange(name: string, value: string)
      modifies this`formState
      ensures formState == Put(old(formState), name, value)
      ensures Get(formState, name) == Some(value)
      ensures forall k :: k != name ==> Get(formState, k) == Get(old(formState), k)
    {
      formState := Put(formState, name, value);
    }
  }
}
