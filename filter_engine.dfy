/**
 * The filter engine of `_filterOptions`: which options remain candidates, and
 * which of the three things a recompute does (filter locally, ask the host to
 * load, or nothing).
 */
module FilterEngine {
  import opened TagData

  /** An empty query matches everything; otherwise the id must contain it, ignoring case. */
  predicate MatchesQuery(id: string, query: string) {
    query == "" || Includes(Lower(id), Lower(query))
  }

  /** An option stays a candidate when it is not selected and it matches the query. */
  predicate Keep(opt: TagOption, selected: seq<string>, query: string) {
    opt.id !in selected && MatchesQuery(opt.id, query)
  }

  /** The local branch of the filter: the options that are kept, in their original order. */
  function FilterLocal(opts: seq<TagOption>, selected: seq<string>, query: string): (kept: seq<TagOption>)
    ensures |kept| <= |opts|
    ensures forall o :: o in kept <==> o in opts && Keep(o, selected, query)
  {
    if opts == [] then []
    else
      assert opts == [opts[0]] + opts[1..];
      (if Keep(opts[0], selected, query) then [opts[0]] else []) + FilterLocal(opts[1..], selected, query)
  }

  /** The success callback's filter: drop the selected ids, ignore the query. */
  function ExcludeSelected(opts: seq<TagOption>, selected: seq<string>): seq<TagOption> {
    FilterLocal(opts, selected, "")
  }

  /** No candidate is selected, and each one matches the query. */
  ghost predicate CandidatesConsistent(kept: seq<TagOption>, selected: seq<string>, query: string) {
    forall o :: o in kept ==> o.id !in selected && MatchesQuery(o.id, query)
  }

  /** `a` is `b` with some entries dropped and the rest in their original order. */
  predicate IsSubsequence<T(==)>(a: seq<T>, b: seq<T>)
    decreases |b|
  {
    if a == [] then true
    else if b == [] then false
    else if a[0] == b[0] then IsSubsequence(a[1..], b[1..])
    else IsSubsequence(a, b[1..])
  }

  /** The candidates appear in the same order as in `options`. */
  lemma {:induction false} FilterIsSubsequence(opts: seq<TagOption>, selected: seq<string>, query: string)
    ensures IsSubsequence(FilterLocal(opts, selected, query), opts)
  {
    if opts != [] {
      FilterIsSubsequence(opts[1..], selected, query);
      var rest := FilterLocal(opts[1..], selected, query);
      if Keep(opts[0], selected, query) {
        assert FilterLocal(opts, selected, query) == [opts[0]] + rest;
        assert ([opts[0]] + rest)[1..] == rest;
      } else {
        assert FilterLocal(opts, selected, query) == rest;
        assert rest != [] ==> rest[0] in rest && rest[0] != opts[0];
      }
    }
  }

  /** A list whose every entry is kept passes through unchanged. */
  lemma {:induction false} FilterKeepsAllKept(opts: seq<TagOption>, selected: seq<string>, query: string)
    requires forall o :: o in opts ==> Keep(o, selected, query)
    ensures FilterLocal(opts, selected, query) == opts
  {
    if opts != [] {
      assert opts[0] in opts;
      FilterKeepsAllKept(opts[1..], selected, query);
      assert opts == [opts[0]] + opts[1..];
    }
  }

  /** Filtering the candidates again with the same inputs changes nothing. */
  lemma FilterIdempotent(opts: seq<TagOption>, selected: seq<string>, query: string)
    ensures FilterLocal(FilterLocal(opts, selected, query), selected, query) == FilterLocal(opts, selected, query)
  {
    FilterKeepsAllKept(FilterLocal(opts, selected, query), selected, query);
  }

  /** The filter reads the selected values only through membership. */
  lemma {:induction false} FilterSelectedByMembership(opts: seq<TagOption>, s1: seq<string>, s2: seq<string>, query: string)
    requires forall v :: v in s1 <==> v in s2
    ensures FilterLocal(opts, s1, query) == FilterLocal(opts, s2, query)
  {
    if opts != [] {
      FilterSelectedByMembership(opts[1..], s1, s2, query);
    }
  }

  /** A negated marker among the selected values never removes a candidate. */
  lemma NegatedMarkerNeverExcludes(opts: seq<TagOption>, before: seq<string>, after: seq<string>, marker: string, query: string)
    requires IsNegated(marker)
    ensures FilterLocal(opts, Unnegated(before + [marker] + after), query)
         == FilterLocal(opts, Unnegated(before + after), query)
  {
    NegatedMarkerIsInvisible(before, after, marker);
  }

  /** Changing the letter case of the query does not change the candidates. */
  lemma {:induction false} FilterIgnoresQueryCase(opts: seq<TagOption>, selected: seq<string>, q1: string, q2: string)
    requires Lower(q1) == Lower(q2)
    ensures FilterLocal(opts, selected, q1) == FilterLocal(opts, selected, q2)
  {
    if opts != [] {
      assert |q1| == |Lower(q1)| == |Lower(q2)| == |q2|;
      assert Keep(opts[0], selected, q1) == Keep(opts[0], selected, q2);
      FilterIgnoresQueryCase(opts[1..], selected, q1, q2);
    }
  }

  /** What one call of `_filterOptions` does. */
  datatype FilterStep =
    | Local(kept: seq<TagOption>)   // options are present: filter them
    | Fetch(request: LoadRequest)   // no options and the list is open: emit `load`
    | Idle                          // no options and the list is closed

  /** Absent and empty `options` both count as "no options". */
  predicate HasOptions(options: Option<seq<TagOption>>) {
    options.Some? && |options.value| > 0
  }

  /** The decision `_filterOptions` takes from the component's inputs. */
  function FilterStepOf(options: Option<seq<TagOption>>, value: seq<string>, query: string,
                        open: bool, field: string, postType: string): (step: FilterStep)
    ensures step.Local? <==> HasOptions(options)
    ensures step.Fetch? <==> !HasOptions(options) && open
    ensures step.Local? ==> CandidatesConsistent(step.kept, Unnegated(value), query)
    ensures step.Local? ==> IsSubsequence(step.kept, options.value)
    ensures step.Fetch? ==> step.request.query == query && step.request.selected == Unnegated(value)
  {
    var selected := Unnegated(value);
    if HasOptions(options) then
      FilterIsSubsequence(options.value, selected, query);
      Local(FilterLocal(options.value, selected, query))
    else if open then Fetch(LoadRequest(field, postType, query, selected))
    else Idle
  }

  /** Running the decision twice on unchanged inputs gives the same candidates. */
  lemma LocalStepIdempotent(options: Option<seq<TagOption>>, value: seq<string>, query: string,
                            open: bool, field: string, postType: string)
    requires HasOptions(options)
    ensures var kept := FilterStepOf(options, value, query, open, field, postType).kept;
            FilterLocal(kept, Unnegated(value), query) == kept
  {
    FilterIdempotent(options.value, Unnegated(value), query);
  }
}
