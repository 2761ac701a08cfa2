/** Cutting a document into regions and a region into sections. */
module Regions {
  import opened Options

  datatype Kind = Heading | Paragraph | Table | ListItems | ImageCaption | Code

  datatype Element = Element(kind: Kind, text: string)

  datatype Region =
    | TableRegion(elements: seq<Element>, caption: Option<string>)
    | ProseRegion(elements: seq<Element>)

  function CaptionForTable(elements: seq<Element>, at: nat): Option<string>
    requires at < |elements|
  {
    if at == 0 then None
    else if elements[at - 1].kind == Paragraph || elements[at - 1].kind == ImageCaption then Some(elements[at - 1].text)
    else None
  }

  // ---- regions ----

  /** `r` covers the elements from `lo` up to `hi`: a table alone with its caption, or a run of
      other elements that cannot be extended either way. */
  ghost predicate Covers(r: Region, elements: seq<Element>, lo: nat, hi: nat) {
    && lo < hi <= |elements| && r.elements == elements[lo..hi]
    && if elements[lo].kind == Table then hi == lo + 1 && r.TableRegion? && r.caption == CaptionForTable(elements, lo)
       else
         && r.ProseRegion?
         && (forall i :: lo <= i < hi ==> elements[i].kind != Table)
         && (lo > 0 ==> elements[lo - 1].kind == Table)
         && (hi < |elements| ==> elements[hi].kind == Table)
  }

  /** The regions cover the document up to `end`, cut at the given places. */
  ghost predicate PartitionTo(rs: seq<Region>, cuts: seq<nat>, elements: seq<Element>, end: nat) {
    && |cuts| == |rs| + 1 && cuts[0] == 0 && cuts[|rs|] == end
    && forall i :: 0 <= i < |rs| ==> Covers(rs[i], elements, cuts[i], cuts[i + 1])
  }

  ghost predicate IsPartition(rs: seq<Region>, cuts: seq<nat>, elements: seq<Element>) {
    PartitionTo(rs, cuts, elements, |elements|)
  }

  lemma AddRegion(rs: seq<Region>, cuts: seq<nat>, elements: seq<Element>, lo: nat, hi: nat, r: Region)
    requires PartitionTo(rs, cuts, elements, lo) && Covers(r, elements, lo, hi)
    ensures PartitionTo(rs + [r], cuts + [hi], elements, hi)
  {
  }

  /** Covered from end to end, for some choice of cuts. */
  ghost predicate Partitions(rs: seq<Region>, elements: seq<Element>) {
    exists cuts :: IsPartition(rs, cuts, elements)
  }

  method PartitionRegions(elements: seq<Element>) returns (regions: seq<Region>)
    ensures Partitions(regions, elements)
  {
    regions := [];
    ghost var cuts: seq<nat> := [0];
    var buffer: seq<Element> := [];
    ghost var start := 0;
    for index := 0 to |elements|
      invariant start + |buffer| == index && buffer == elements[start..index]
      invariant PartitionTo(regions, cuts, elements, start)
      invariant forall i :: start <= i < index ==> elements[i].kind != Table
      invariant start > 0 ==> elements[start - 1].kind == Table
    {
      assert elements[start..index + 1] == elements[start..index] + [elements[index]];
      if elements[index].kind != Table {
        buffer := buffer + [elements[index]];
        continue;
      }
      if buffer != [] {
        AddRegion(regions, cuts, elements, start, index, ProseRegion(buffer));
        regions, cuts := regions + [ProseRegion(buffer)], cuts + [index];
        buffer := [];
      }
      var table := TableRegion([elements[index]], CaptionForTable(elements, index));
      AddRegion(regions, cuts, elements, index, index + 1, table);
      regions, cuts := regions + [table], cuts + [index + 1];
      start := index + 1;
    }
    if buffer != [] {
      AddRegion(regions, cuts, elements, start, |elements|, ProseRegion(buffer));
      regions, cuts := regions + [ProseRegion(buffer)], cuts + [|elements|];
    }
    assert IsPartition(regions, cuts, elements);
  }

  /** A table's caption is the text just before it, if that is a paragraph or an image caption. */
  lemma CaptionIs(rs: seq<Region>, cuts: seq<nat>, elements: seq<Element>, i: nat)
    requires IsPartition(rs, cuts, elements) && i < |rs| && rs[i].TableRegion?
    ensures cuts[i] < |elements| && elements[cuts[i]].kind == Table
    ensures rs[i].caption.Some? <==> cuts[i] > 0 && elements[cuts[i] - 1].kind in {Paragraph, ImageCaption}
    ensures rs[i].caption.Some? ==> rs[i].caption.value == elements[cuts[i] - 1].text
  {
    assert Covers(rs[i], elements, cuts[i], cuts[i + 1]);
  }

  function Flatten(rs: seq<Region>, n: nat): seq<Element>
    requires n <= |rs|
  {
    if n == 0 then [] else Flatten(rs, n - 1) + rs[n - 1].elements
  }

  /** Nothing is lost, repeated or reordered. */
  lemma RegionsFlatten(rs: seq<Region>, elements: seq<Element>)
    requires Partitions(rs, elements)
    ensures Flatten(rs, |rs|) == elements
  {
    var cuts :| IsPartition(rs, cuts, elements);
    FlattenTo(rs, cuts, elements, |rs|);
  }

  lemma {:induction false} FlattenTo(rs: seq<Region>, cuts: seq<nat>, elements: seq<Element>, n: nat)
    requires IsPartition(rs, cuts, elements) && n <= |rs|
    ensures cuts[n] <= |elements| && Flatten(rs, n) == elements[..cuts[n]]
  {
    if n > 0 {
      FlattenTo(rs, cuts, elements, n - 1);
      assert Covers(rs[n - 1], elements, cuts[n - 1], cuts[n]);
      assert elements[..cuts[n]] == elements[..cuts[n - 1]] + elements[cuts[n - 1]..cuts[n]];
    }
  }

  lemma SameCover(r: Region, q: Region, elements: seq<Element>, lo: nat, hi: nat, hi': nat)
    requires Covers(r, elements, lo, hi) && Covers(q, elements, lo, hi')
    ensures hi == hi' && r == q
  {
  }

  lemma NoRoomLeft(rs: seq<Region>, cuts: seq<nat>, elements: seq<Element>, n: nat)
    requires IsPartition(rs, cuts, elements) && n < |rs|
    ensures cuts[n] < |elements|
  {
    assert Covers(rs[n], elements, cuts[n], cuts[n + 1]);
  }

  lemma {:induction false} PartitionsAgreeTo(rs: seq<Region>, cuts: seq<nat>, rs': seq<Region>, cuts': seq<nat>,
                                             elements: seq<Element>, n: nat)
    requires IsPartition(rs, cuts, elements) && IsPartition(rs', cuts', elements) && n <= |rs|
    ensures n <= |rs'| && cuts[n] == cuts'[n]
    ensures forall i :: 0 <= i < n ==> rs[i] == rs'[i]
  {
    if n > 0 {
      PartitionsAgreeTo(rs, cuts, rs', cuts', elements, n - 1);
      NoRoomLeft(rs, cuts, elements, n - 1);
      SameCover(rs[n - 1], rs'[n - 1], elements, cuts[n - 1], cuts[n], cuts'[n]);
    }
  }

  /** The rules leave no choice: a document has exactly one partition. */
  lemma PartitionIsUnique(rs: seq<Region>, rs': seq<Region>, elements: seq<Element>)
    requires Partitions(rs, elements) && Partitions(rs', elements)
    ensures rs == rs'
  {
    var cuts :| IsPartition(rs, cuts, elements);
    var cuts' :| IsPartition(rs', cuts', elements);
    PartitionsAgreeTo(rs, cuts, rs', cuts', elements, |rs|);
    PartitionsAgreeTo(rs', cuts', rs, cuts, elements, |rs'|);
  }

  // ---- sections ----

  datatype Section = Section(path: Option<string>, content: seq<Element>)

  /** Where a section's content lies, and where the headings before it begin. */
  datatype Span = Span(gap: nat, lo: nat, hi: nat)

  ghost predicate OnlyHeadings(elements: seq<Element>, lo: nat, hi: nat) {
    lo <= hi <= |elements| && forall i :: lo <= i < hi ==> elements[i].kind == Heading
  }

  /** `s` is a whole run of elements between headings, under the heading just before it. */
  ghost predicate Holds(s: Section, elements: seq<Element>, at: Span) {
    && at.lo < at.hi <= |elements| && s.content == elements[at.lo..at.hi]
    && OnlyHeadings(elements, at.gap, at.lo)
    && (forall i :: at.lo <= i < at.hi ==> elements[i].kind != Heading)
    && (at.lo > 0 ==> elements[at.lo - 1].kind == Heading)
    && (at.hi < |elements| ==> elements[at.hi].kind == Heading)
    && s.path == if at.lo == 0 then None else Some(elements[at.lo - 1].text)
  }

  ghost predicate Linked(spans: seq<Span>) {
    && (spans != [] ==> spans[0].gap == 0)
    && forall i, j :: 0 <= i && j == i + 1 < |spans| ==> spans[j].gap == spans[i].hi
  }

  function EndOf(spans: seq<Span>, n: nat): nat
    requires n <= |spans|
  {
    if n == 0 then 0 else spans[n - 1].hi
  }

  ghost predicate SplitTo(sections: seq<Section>, spans: seq<Span>, elements: seq<Element>, end: nat) {
    && |spans| == |sections| && Linked(spans) && EndOf(spans, |spans|) == end
    && (forall i :: 0 <= i < |sections| ==> Holds(sections[i], elements, spans[i]))
  }

  /** The sections hold every element that is not a heading, and only headings lie between. */
  ghost predicate IsSplit(sections: seq<Section>, spans: seq<Span>, elements: seq<Element>) {
    SplitTo(sections, spans, elements, EndOf(spans, |spans|)) && OnlyHeadings(elements, EndOf(spans, |spans|), |elements|)
  }

  lemma AddSection(sections: seq<Section>, spans: seq<Span>, elements: seq<Element>, s: Section, at: Span)
    requires SplitTo(sections, spans, elements, at.gap) && Holds(s, elements, at)
    ensures SplitTo(sections + [s], spans + [at], elements, at.hi)
  {
  }

  /** The run being collected: no heading since `start`, which follows the heading `path`. */
  ghost predicate Collecting(elements: seq<Element>, gap: nat, start: nat, index: nat, path: Option<string>) {
    && start <= index <= |elements| && OnlyHeadings(elements, gap, start)
    && (forall i :: start <= i < index ==> elements[i].kind != Heading)
    && (start > 0 ==> elements[start - 1].kind == Heading)
    && path == if start == 0 then None else Some(elements[start - 1].text)
  }

  lemma CloseSection(elements: seq<Element>, gap: nat, start: nat, index: nat, path: Option<string>)
    requires Collecting(elements, gap, start, index, path)
    requires index < |elements| ==> elements[index].kind == Heading
    ensures start < index ==> Holds(Section(path, elements[start..index]), elements, Span(gap, start, index))
    ensures index < |elements| ==>
              Collecting(elements, if start < index then index else gap, index + 1, index + 1, Some(elements[index].text))
  {
  }

  ghost predicate Splits(sections: seq<Section>, elements: seq<Element>) {
    exists spans :: IsSplit(sections, spans, elements)
  }

  method SplitIntoSections(elements: seq<Element>) returns (sections: seq<Section>)
    ensures Splits(sections, elements)
  {
    sections := [];
    ghost var spans: seq<Span> := [];
    var path: Option<string> := None;
    var content: seq<Element> := [];
    ghost var gap, start := 0, 0;
    for index := 0 to |elements|
      invariant Collecting(elements, gap, start, index, path) && content == elements[start..index]
      invariant SplitTo(sections, spans, elements, gap)
    {
      var e := elements[index];
      if e.kind == Heading {
        CloseSection(elements, gap, start, index, path);
        if content != [] {
          AddSection(sections, spans, elements, Section(path, content), Span(gap, start, index));
          sections, spans := sections + [Section(path, content)], spans + [Span(gap, start, index)];
          gap := index;
        }
        path := Some(e.text);
        content := [];
        start := index + 1;
        continue;
      }
      assert elements[start..index + 1] == elements[start..index] + [e];
      content := content + [e];
    }
    CloseSection(elements, gap, start, |elements|, path);
    if content != [] {
      AddSection(sections, spans, elements, Section(path, content), Span(gap, start, |elements|));
      sections, spans := sections + [Section(path, content)], spans + [Span(gap, start, |elements|)];
    }
    assert IsSplit(sections, spans, elements);
  }

  function NonHeadings(elements: seq<Element>, n: nat): seq<Element>
    requires n <= |elements|
  {
    if n == 0 then []
    else if elements[n - 1].kind == Heading then NonHeadings(elements, n - 1)
    else NonHeadings(elements, n - 1) + [elements[n - 1]]
  }

  function Contents(sections: seq<Section>, n: nat): seq<Element>
    requires n <= |sections|
  {
    if n == 0 then [] else Contents(sections, n - 1) + sections[n - 1].content
  }

  lemma {:induction false} SkipHeadings(elements: seq<Element>, lo: nat, hi: nat)
    requires OnlyHeadings(elements, lo, hi)
    ensures NonHeadings(elements, hi) == NonHeadings(elements, lo)
    decreases hi
  {
    if lo < hi { SkipHeadings(elements, lo, hi - 1); }
  }

  lemma {:induction false} TakeRun(elements: seq<Element>, lo: nat, hi: nat)
    requires lo <= hi <= |elements| && forall i :: lo <= i < hi ==> elements[i].kind != Heading
    ensures NonHeadings(elements, hi) == NonHeadings(elements, lo) + elements[lo..hi]
    decreases hi
  {
    if lo < hi {
      TakeRun(elements, lo, hi - 1);
      assert elements[lo..hi] == elements[lo..hi - 1] + [elements[hi - 1]];
    }
  }

  /** The sections' contents in order are the document without its headings. */
  lemma SectionsFlatten(sections: seq<Section>, elements: seq<Element>)
    requires Splits(sections, elements)
    ensures Contents(sections, |sections|) == NonHeadings(elements, |elements|)
  {
    var spans :| IsSplit(sections, spans, elements);
    ContentsTo(sections, spans, elements, |sections|);
    SkipHeadings(elements, EndOf(spans, |sections|), |elements|);
  }

  lemma {:induction false} ContentsTo(sections: seq<Section>, spans: seq<Span>, elements: seq<Element>, n: nat)
    requires IsSplit(sections, spans, elements) && n <= |sections|
    ensures EndOf(spans, n) <= |elements|
    ensures Contents(sections, n) == NonHeadings(elements, EndOf(spans, n))
  {
    if n > 0 {
      ContentsTo(sections, spans, elements, n - 1);
      var at := spans[n - 1];
      assert Holds(sections[n - 1], elements, at) && at.gap == EndOf(spans, n - 1);
      SkipHeadings(elements, at.gap, at.lo);
      TakeRun(elements, at.lo, at.hi);
    }
  }

  lemma SameHold(s: Section, q: Section, elements: seq<Element>, at: Span, at': Span)
    requires Holds(s, elements, at) && Holds(q, elements, at') && at.gap == at'.gap
    ensures s == q && at == at'
  {
    assert elements[at.lo].kind != Heading && elements[at'.lo].kind != Heading;
    assert at.lo == at'.lo;
  }

  lemma {:induction false} SplitsAgreeTo(a: seq<Section>, sa: seq<Span>, b: seq<Section>, sb: seq<Span>,
                                         elements: seq<Element>, n: nat)
    requires IsSplit(a, sa, elements) && IsSplit(b, sb, elements) && n <= |a|
    ensures n <= |b| && EndOf(sa, n) == EndOf(sb, n)
    ensures forall i :: 0 <= i < n ==> a[i] == b[i]
  {
    if n > 0 {
      SplitsAgreeTo(a, sa, b, sb, elements, n - 1);
      MoreSections(a, sa, b, sb, elements, n - 1);
      SameHold(a[n - 1], b[n - 1], elements, sa[n - 1], sb[n - 1]);
    }
  }

  /** And the split, too, is the only one. */
  lemma SplitIsUnique(a: seq<Section>, b: seq<Section>, elements: seq<Element>)
    requires Splits(a, elements) && Splits(b, elements)
    ensures a == b
  {
    var sa :| IsSplit(a, sa, elements);
    var sb :| IsSplit(b, sb, elements);
    SplitsAgreeTo(a, sa, b, sb, elements, |a|);
    SplitsAgreeTo(b, sb, a, sa, elements, |b|);
  }

  lemma MoreSections(a: seq<Section>, sa: seq<Span>, b: seq<Section>, sb: seq<Span>, elements: seq<Element>, n: nat)
    requires IsSplit(a, sa, elements) && IsSplit(b, sb, elements) && n < |a| && n <= |b| && EndOf(sa, n) == EndOf(sb, n)
    ensures n < |b| && sa[n].gap == EndOf(sa, n) && sb[n].gap == EndOf(sb, n)
  {
    assert Holds(a[n], elements, sa[n]) && sa[n].gap == EndOf(sa, n);
    assert elements[sa[n].lo].kind != Heading;
  }
}
