/**
 * `_renderSelectedOptions`: one removable chip per selected tag, with its display
 * label resolved from the option lists and its link built by the host, if the
 * host offers a link builder.
 */
module TagRenderer {
  import opened TagData

  /** The `{ id, name }` record handed to the host's list-URL builder. */
  datatype LinkLabel = LinkLabel(id: string, name: string)

  /** The host's optional link builder (`createCustomFilter`, `create_url_for_list_query`);
      the filter description it builds is opaque here and carried as a string. */
  datatype Host = Host(createCustomFilter: (string, seq<string>) -> string,
                       createUrlForListQuery: (string, string, seq<LinkLabel>) -> string)

  /** A rendered selected tag: the value, its display label and its link target. */
  datatype Chip = Chip(tag: string, text: string, href: string)

  /** Labels come from `options` when it is present, even empty, else from `allOptions`. */
  function LabelSource(options: Option<seq<TagOption>>, allOptions: Option<seq<TagOption>>): Option<seq<TagOption>> {
    if options.Some? then options else allOptions
  }

  /** The options whose id is the tag, in order. */
  function WithId(opts: seq<TagOption>, tag: string): (found: seq<TagOption>)
    ensures forall o :: o in found ==> o in opts && o.id == tag
  {
    if opts == [] then []
    else (if opts[0].id == tag then [opts[0]] else []) + WithId(opts[1..], tag)
  }

  /** An option's label, else its id, else the tag. */
  function OptionLabel(o: TagOption, tag: string): string {
    if o.caption != "" then o.caption else if o.id != "" then o.id else tag
  }

  /** The display label of a selected tag. */
  function ResolveLabel(source: Option<seq<TagOption>>, tag: string): (text: string)
    ensures text == tag || (source.Some? && exists o :: o in source.value && o.id == tag && o.caption == text)
  {
    if source.None? then tag
    else
      var found := WithId(source.value, tag);
      if |found| > 0 then
        assert found[0] in found;
        OptionLabel(found[0], tag)
      else tag
  }

  /** Reference definition: the label of the first option whose id is the tag, else the tag. */
  function FirstMatchLabel(opts: seq<TagOption>, tag: string): string {
    if opts == [] then tag
    else if opts[0].id == tag then (if opts[0].caption != "" then opts[0].caption else tag)
    else FirstMatchLabel(opts[1..], tag)
  }

  /** Resolving against a list takes the first option with that id, as the reference does. */
  lemma {:induction false} ResolveLabelIsFirstMatch(opts: seq<TagOption>, tag: string)
    ensures ResolveLabel(Some(opts), tag) == FirstMatchLabel(opts, tag)
  {
    if opts != [] {
      ResolveLabelIsFirstMatch(opts[1..], tag);
      if opts[0].id == tag {
        assert WithId(opts, tag)[0] == opts[0];
      } else {
        assert WithId(opts, tag) == WithId(opts[1..], tag);
      }
    }
  }

  /** The field's label, else its name. */
  function FieldLabel(fieldLabel: string, name: string): string {
    if fieldLabel != "" then fieldLabel else name
  }

  /** The record naming one tag of one field for the host's list link. */
  function LinkLabelFor(name: string, fieldLabel: string, tag: string): LinkLabel {
    LinkLabel(name + "_" + tag, fieldLabel + ": " + tag)
  }

  /** The link label's id names the field and the tag, and the tag can be read back from it. */
  lemma LinkLabelIdRoundTrip(name: string, fieldLabel: string, tag: string)
    ensures var id := LinkLabelFor(name, fieldLabel, tag).id;
            |id| == |name| + 1 + |tag| && id[..|name|] == name && id[|name|] == '_' && id[|name| + 1..] == tag
  {
  }

  /** Within one field, different tags never share a link-label id. */
  lemma LinkLabelIdInjective(name: string, label1: string, label2: string, tag1: string, tag2: string)
    requires LinkLabelFor(name, label1, tag1).id == LinkLabelFor(name, label2, tag2).id
    ensures tag1 == tag2
  {
    LinkLabelIdRoundTrip(name, label1, tag1);
    LinkLabelIdRoundTrip(name, label2, tag2);
  }

  /** The chip's link: the host's URL when it has a link builder and returns one, else `#`. */
  function Href(host: Option<Host>, postType: string, name: string, fieldLabel: string, tag: string): (href: string)
    ensures href != ""
    ensures host.None? ==> href == "#"
  {
    match host
    case None => "#"
    case Some(h) =>
      var query := h.createCustomFilter(name, [tag]);
      var link := h.createUrlForListQuery(postType, query, [LinkLabelFor(name, FieldLabel(fieldLabel, name), tag)]);
      if link != "" then link else "#"
  }

  /** The chips of `_renderSelectedOptions`, one per non-negated value, in order. */
  function SelectedChips(value: seq<string>, options: Option<seq<TagOption>>, allOptions: Option<seq<TagOption>>,
                         host: Option<Host>, name: string, fieldLabel: string, postType: string): (chips: seq<Chip>)
    ensures |chips| == |Unnegated(value)|
    ensures forall i :: 0 <= i < |chips| ==> chips[i].tag == Unnegated(value)[i]
  {
    var tags := Unnegated(value);
    var source := LabelSource(options, allOptions);
    seq(|tags|, i requires 0 <= i < |tags| =>
      Chip(tags[i], ResolveLabel(source, tags[i]), Href(host, postType, name, fieldLabel, tags[i])))
  }

  /** Every non-negated value gets exactly one chip per occurrence, and no negated marker gets one. */
  lemma ChipsAreThePlainValues(value: seq<string>, options: Option<seq<TagOption>>, allOptions: Option<seq<TagOption>>,
                               host: Option<Host>, name: string, fieldLabel: string, postType: string)
    ensures var chips := SelectedChips(value, options, allOptions, host, name, fieldLabel, postType);
            |chips| == CountPlain(value)
            && (forall c :: c in chips ==> c.tag in value && !IsNegated(c.tag))
            && (forall v :: v in value && !IsNegated(v) ==> exists c :: c in chips && c.tag == v)
  {
    var chips := SelectedChips(value, options, allOptions, host, name, fieldLabel, postType);
    var tags := Unnegated(value);
    UnnegatedCount(value);
    UnnegatedMembers(value);
    forall c | c in chips
      ensures c.tag in value && !IsNegated(c.tag)
    {
      var i :| 0 <= i < |chips| && chips[i] == c;
      assert c.tag == tags[i];
    }
    forall v | v in value && !IsNegated(v)
      ensures exists c :: c in chips && c.tag == v
    {
      var i :| 0 <= i < |tags| && tags[i] == v;
      assert chips[i] in chips;
    }
  }

  /** Each chip's label is the first matching option's label from `options` if present, else
      from `allOptions`, falling back to the tag itself. */
  lemma ChipLabelsFollowFirstMatch(value: seq<string>, options: Option<seq<TagOption>>, allOptions: Option<seq<TagOption>>,
                                   host: Option<Host>, name: string, fieldLabel: string, postType: string)
    ensures var chips := SelectedChips(value, options, allOptions, host, name, fieldLabel, postType);
            forall c :: c in chips ==>
              c.text == (match LabelSource(options, allOptions)
                         case None => c.tag
                         case Some(opts) => FirstMatchLabel(opts, c.tag))
  {
    var chips := SelectedChips(value, options, allOptions, host, name, fieldLabel, postType);
    forall c | c in chips
      ensures c.text == (match LabelSource(options, allOptions)
                         case None => c.tag
                         case Some(opts) => FirstMatchLabel(opts, c.tag))
    {
      if LabelSource(options, allOptions).Some? {
        ResolveLabelIsFirstMatch(LabelSource(options, allOptions).value, c.tag);
      }
    }
  }

  /** A present but empty `options` hides `allOptions`: every chip shows its raw tag. */
  lemma EmptyOptionsHideAllOptions(value: seq<string>, allOptions: Option<seq<TagOption>>,
                                   host: Option<Host>, name: string, fieldLabel: string, postType: string)
    ensures forall c :: c in SelectedChips(value, Some([]), allOptions, host, name, fieldLabel, postType) ==> c.text == c.tag
  {
  }
}
