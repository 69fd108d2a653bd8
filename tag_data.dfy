/**
 * Values the tag picker works on: option records, selected values (with their
 * negated `-` markers), the ASCII stand-in for locale lower-casing, substring
 * search, and the normalisation of what a `load` consumer hands back.
 */
module TagData {

  datatype Option<+T> = None | Some(value: T)

  /** An option record `{ id, label? }`. An empty `caption` (the source's `label`) stands for an unset one:
      the component only ever reads it through `label || ...`, where both are falsy. */
  datatype TagOption = TagOption(id: string, caption: string)

  /** What a `load` consumer passes to the success callback: bare names or option records. */
  datatype LoadResult = Strings(names: seq<string>) | Records(records: seq<TagOption>)

  /** One emitted `load` event: its detail fields, plus the selected values that its
      callbacks captured when the event was built. */
  datatype LoadRequest = LoadRequest(field: string, postType: string, query: string, selected: seq<string>)

  /** A value starting with `-` is an exclusion marker, not a tag. */
  predicate IsNegated(v: string) {
    |v| > 0 && v[0] == '-'
  }

  /** The selected values with the negated markers dropped, in order. */
  function Unnegated(values: seq<string>): (plain: seq<string>)
    ensures |plain| <= |values|
  {
    if values == [] then []
    else (if IsNegated(values[0]) then [] else [values[0]]) + Unnegated(values[1..])
  }

  /** The plain values are exactly the entries that are not negated markers. */
  lemma {:induction false} UnnegatedMembers(values: seq<string>)
    ensures forall v :: v in Unnegated(values) <==> v in values && !IsNegated(v)
  {
    if values != [] {
      UnnegatedMembers(values[1..]);
      assert values == [values[0]] + values[1..];
    }
  }

  /** Number of entries of `values` that are tags rather than negated markers. */
  function CountPlain(values: seq<string>): nat {
    if values == [] then 0
    else (if IsNegated(values[0]) then 0 else 1) + CountPlain(values[1..])
  }

  /** The plain entries keep their order: filtering distributes over concatenation. */
  lemma {:induction false} UnnegatedAppend(a: seq<string>, b: seq<string>)
    ensures Unnegated(a + b) == Unnegated(a) + Unnegated(b)
  {
    if a == [] {
      assert a + b == b;
    } else {
      assert (a + b)[0] == a[0];
      assert (a + b)[1..] == a[1..] + b;
      UnnegatedAppend(a[1..], b);
    }
  }

  /** Exactly one entry survives per non-negated value. */
  lemma {:induction false} UnnegatedCount(values: seq<string>)
    ensures |Unnegated(values)| == CountPlain(values)
  {
    if values != [] {
      UnnegatedCount(values[1..]);
    }
  }

  /** A negated marker on its own contributes no plain value. */
  lemma UnnegatedOfMarker(marker: string)
    requires IsNegated(marker)
    ensures Unnegated([marker]) == []
  {
  }

  /** Inserting a negated marker anywhere leaves the plain values unchanged. */
  lemma NegatedMarkerIsInvisible(before: seq<string>, after: seq<string>, marker: string)
    requires IsNegated(marker)
    ensures Unnegated(before + [marker] + after) == Unnegated(before + after)
  {
    UnnegatedOfMarker(marker);
    UnnegatedAppend(before + [marker], after);
    UnnegatedAppend(before, [marker]);
    assert Unnegated(before + [marker]) == Unnegated(before);
    UnnegatedAppend(before, after);
  }

  /** ASCII lower-casing of one character. */
  function LowerChar(c: char): char {
    if 'A' <= c <= 'Z' then (c as int - 'A' as int + 'a' as int) as char else c
  }

  /** Stand-in for `toLocaleLowerCase`: ASCII letters only. */
  function Lower(s: string): (r: string)
    ensures |r| == |s|
    ensures forall i :: 0 <= i < |r| ==> !('A' <= r[i] <= 'Z')
    ensures forall i :: 0 <= i < |r| && !('A' <= s[i] <= 'Z') ==> r[i] == s[i]
    ensures forall i :: 0 <= i < |r| && 'A' <= s[i] <= 'Z' ==> r[i] as int == s[i] as int + 32
  {
    seq(|s|, i requires 0 <= i < |s| => LowerChar(s[i]))
  }

  /** Lower-casing twice is lower-casing once. */
  lemma LowerIdempotent(s: string)
    ensures Lower(Lower(s)) == Lower(s)
  {
  }

  /** `sub` occurs in `s` starting at index `i`. */
  ghost predicate OccursAt(s: string, sub: string, i: int) {
    0 <= i && i + |sub| <= |s| && s[i..i + |sub|] == sub
  }

  lemma IncludesStep(s: string, sub: string)
    requires 0 < |sub| <= |s| && !OccursAt(s, sub, 0)
    ensures (exists i :: OccursAt(s, sub, i)) <==> (exists i :: OccursAt(s[1..], sub, i))
  {
    if exists i :: OccursAt(s, sub, i) {
      var i :| OccursAt(s, sub, i);
      assert s[1..][i - 1..i - 1 + |sub|] == s[i..i + |sub|];
      assert OccursAt(s[1..], sub, i - 1);
    }
    if exists i :: OccursAt(s[1..], sub, i) {
      var i :| OccursAt(s[1..], sub, i);
      assert s[1..][i..i + |sub|] == s[i + 1..i + 1 + |sub|];
      assert OccursAt(s, sub, i + 1);
    }
  }

  /** Substring search; the empty string occurs in every string. */
  function Includes(s: string, sub: string): (r: bool)
    ensures r <==> exists i :: OccursAt(s, sub, i)
    decreases |s|
  {
    if |sub| > |s| then false
    else if s[..|sub|] == sub then
      assert OccursAt(s, sub, 0);
      true
    else
      IncludesStep(s, sub);
      Includes(s[1..], sub)
  }

  /** The ids of a list of options, in order. */
  function Ids(opts: seq<TagOption>): (ids: seq<string>)
    ensures |ids| == |opts|
  {
    if opts == [] then [] else [opts[0].id] + Ids(opts[1..])
  }

  /** The success callback's shape fix: a list of bare strings becomes `{ id }` records. */
  function Normalise(result: LoadResult): (opts: seq<TagOption>)
  {
    match result
    case Strings(names) => seq(|names|, i requires 0 <= i < |names| => TagOption(names[i], ""))
    case Records(records) => records
  }

  /** Normalising names and reading back the ids gives the names; no label is invented. */
  lemma {:induction false} NormaliseStringsRoundTrip(names: seq<string>)
    ensures Ids(Normalise(Strings(names))) == names
    ensures forall o :: o in Normalise(Strings(names)) ==> o.caption == ""
  {
    if names != [] {
      NormaliseStringsRoundTrip(names[1..]);
      assert Normalise(Strings(names))[1..] == Normalise(Strings(names[1..]));
    }
  }
}
