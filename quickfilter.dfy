/** The quick filter of the fossil-fuel dependency list: a free-text query narrows the
    list to the records that mention it, and narrows each kept record's example
    locations to those that mention it. */
module QuickFilter {
  import opened Text
  import opened Sequences

  /** One entry of the dependency list: its name, why it is common, its issue tags and
      its example locations. The icon each entry carries is presentational and not
      modelled. */
  datatype Record = Record(name: string, whyCommon: string, issues: seq<string>, examples: seq<string>)

  /** `text.toLowerCase().includes(q)`. A query longer than the text never matches. */
  predicate Mentions(text: string, q: string): (r: bool)
    ensures r ==> |q| <= |text|
  {
    Contains(Lower(text), q)
  }

  /** The test applied to each example location. */
  function ExampleTest(q: string): string -> bool
  {
    e => Mentions(e, q)
  }

  /** The copy of `n` that the `.map` step builds: every field as in `n`, except that the
      examples are narrowed to those that mention `q`, keeping their order. */
  function Narrow(n: Record, q: string): (r: Record)
    ensures r.name == n.name && r.whyCommon == n.whyCommon && r.issues == n.issues
    ensures forall k :: 0 <= k < |r.examples| ==> r.examples[k] in n.examples && Mentions(r.examples[k], q)
    ensures forall i :: 0 <= i < |n.examples| && Mentions(n.examples[i], q) ==> n.examples[i] in r.examples
  {
    n.(examples := FilterBy(ExampleTest(q), n.examples))
  }

  /** The `.map` step over the whole list. */
  function NarrowAll(ds: seq<Record>, q: string): (r: seq<Record>)
    ensures |r| == |ds|
  {
    seq(|ds|, i requires 0 <= i < |ds| => Narrow(ds[i], q))
  }

  /** The test the outer `.filter` applies to a narrowed copy: its name, its reason or one
      of its issues mentions `q`, or some example survived the narrowing. */
  predicate Retained(n: Record, q: string)
  {
    || Mentions(n.name, q)
    || Mentions(n.whyCommon, q)
    || (exists i | 0 <= i < |n.issues| :: Mentions(n.issues[i], q))
    || |n.examples| != 0
  }

  function RecordTest(q: string): Record -> bool
  {
    n => Retained(n, q)
  }

  /** The filtered view of `ds` for the text typed into the search box. A blank query
      gives back `ds` itself; otherwise the raw query, lower-cased but not trimmed, is the
      text every match must contain. */
  function Filter(query: string, ds: seq<Record>): (r: seq<Record>)
    ensures |r| <= |ds|
  {
    if Trim(query) == [] then ds
    else
      var q := Lower(query);
      FilterBy(RecordTest(q), NarrowAll(ds, q))
  }

  // ---------------------------------------------------------------------------------
  // The view described independently of how it is computed
  // ---------------------------------------------------------------------------------

  /** A source record belongs in the view for `q` when its name, its reason, one of its
      issues or one of its examples mentions `q`. */
  ghost predicate Selected(d: Record, q: string)
  {
    || Mentions(d.name, q)
    || Mentions(d.whyCommon, q)
    || (exists i | 0 <= i < |d.issues| :: Mentions(d.issues[i], q))
    || (exists j | 0 <= j < |d.examples| :: Mentions(d.examples[j], q))
  }

  /** `r` is the view of `ds` for `q`: the narrowed copies of the selected records, taken
      at the increasing positions `idx`, which are exactly the selected ones. */
  ghost predicate IsView(q: string, ds: seq<Record>, r: seq<Record>, idx: seq<nat>)
  {
    && |idx| == |r|
    && Increasing(idx)
    && (forall k :: 0 <= k < |idx| ==> idx[k] < |ds| && r[k] == Narrow(ds[idx[k]], q))
    && (forall i :: 0 <= i < |ds| ==> (i in idx <==> Selected(ds[i], q)))
  }

  // ---------------------------------------------------------------------------------
  // Properties
  // ---------------------------------------------------------------------------------

  /** The narrowed examples are the order-preserving selection of the source examples
      that mention `q`. */
  lemma NarrowSelects(n: Record, q: string) returns (idx: seq<nat>)
    ensures IsSelection(ExampleTest(q), n.examples, Narrow(n, q).examples, idx)
  {
    idx := FilterBySelects(ExampleTest(q), n.examples);
  }

  /** A narrowed copy survives the outer filter exactly when its source record is
      selected: the surviving examples are non-empty exactly when some example mentions
      `q`. */
  lemma RetainedIffSelected(d: Record, q: string)
    ensures Retained(Narrow(d, q), q) <==> Selected(d, q)
  {
    var n := Narrow(d, q);
    if |n.examples| != 0 {
      assert n.examples[0] in d.examples;
    }
  }

  /** A blank query (empty or only whitespace) leaves the list exactly as it is: same
      records, same order, examples untouched. */
  lemma BlankQueryIsIdentity(query: string, ds: seq<Record>)
    requires IsBlank(query)
    ensures Filter(query, ds) == ds
  {
    TrimEmptyIffBlank(query);
  }

  /** For a query that is not blank, the filter computes the view for the lower-cased raw
      query: an order-preserving subsequence of the narrowed records, holding a record
      exactly when it is selected. */
  lemma FilterSelects(query: string, ds: seq<Record>) returns (idx: seq<nat>)
    requires !IsBlank(query)
    ensures IsView(Lower(query), ds, Filter(query, ds), idx)
  {
    TrimEmptyIffBlank(query);
    var q := Lower(query);
    var ns := NarrowAll(ds, q);
    idx := FilterBySelects(RecordTest(q), ns);
    forall i | 0 <= i < |ds|
      ensures i in idx <==> Selected(ds[i], q)
    {
      assert ns[i] == Narrow(ds[i], q);
      RetainedIffSelected(ds[i], q);
    }
  }

  /** The view is unique: any sequence that is the view of `ds` for the lower-cased
      query is what the filter returns. */
  lemma ViewUnique(query: string, ds: seq<Record>, r: seq<Record>, idx: seq<nat>)
    requires !IsBlank(query)
    requires IsView(Lower(query), ds, r, idx)
    ensures r == Filter(query, ds)
  {
    TrimEmptyIffBlank(query);
    var q := Lower(query);
    var ns := NarrowAll(ds, q);
    forall i | 0 <= i < |ns|
      ensures i in idx <==> RecordTest(q)(ns[i])
    {
      assert ns[i] == Narrow(ds[i], q);
      RetainedIffSelected(ds[i], q);
    }
    SelectionUnique(RecordTest(q), ns, r, idx);
  }

  /** Every record of the view keeps the name, reason and issues of the source record it
      was copied from, and its examples are exactly the source examples that mention the
      lower-cased query, in their original order. */
  lemma ViewRecordsFromSource(query: string, ds: seq<Record>, k: nat) returns (i: nat)
    requires !IsBlank(query) && k < |Filter(query, ds)|
    ensures i < |ds|
    ensures var r, d, q := Filter(query, ds)[k], ds[i], Lower(query);
      && r.name == d.name && r.whyCommon == d.whyCommon && r.issues == d.issues
      && r.examples == FilterBy(ExampleTest(q), d.examples)
      && (forall e :: e in r.examples ==> e in d.examples && Mentions(e, q))
      && (forall e :: e in d.examples && Mentions(e, q) ==> e in r.examples)
  {
    var idx := FilterSelects(query, ds);
    i := idx[k];
    var r, d, q := Filter(query, ds)[k], ds[i], Lower(query);
    assert r == Narrow(d, q);
    forall e | e in d.examples && Mentions(e, q)
      ensures e in r.examples
    {
      var j :| 0 <= j < |d.examples| && d.examples[j] == e;
    }
  }

  /** A record whose lower-cased name contains the lower-cased query is always in the
      view, with its examples narrowed. */
  lemma NameMatchIsKept(query: string, ds: seq<Record>, i: nat)
    requires !IsBlank(query) && i < |ds| && Mentions(ds[i].name, Lower(query))
    ensures Narrow(ds[i], Lower(query)) in Filter(query, ds)
  {
    TrimEmptyIffBlank(query);
    var q := Lower(query);
    var ns := NarrowAll(ds, q);
    assert ns[i] == Narrow(ds[i], q);
    assert RecordTest(q)(ns[i]);
  }

  /** Queries with the same lower-case form give the same view. */
  lemma CaseInsensitive(query: string, query': string, ds: seq<Record>)
    requires Lower(query) == Lower(query')
    ensures Filter(query, ds) == Filter(query', ds)
  {
    SameLowerSameBlank(query, query');
    TrimEmptyIffBlank(query);
    TrimEmptyIffBlank(query');
  }

  /** Narrowing an already narrowed copy changes nothing. */
  lemma NarrowIdempotent(n: Record, q: string)
    ensures Narrow(Narrow(n, q), q) == Narrow(n, q)
  {
    FilterByIdempotent(ExampleTest(q), n.examples);
  }

  /** A record of the narrowed list is already narrowed. */
  lemma NarrowedStaysNarrowed(ds: seq<Record>, q: string, x: Record)
    requires x in NarrowAll(ds, q)
    ensures Narrow(x, q) == x
  {
    var ns := NarrowAll(ds, q);
    var i :| 0 <= i < |ns| && ns[i] == x;
    NarrowIdempotent(ds[i], q);
  }

  /** Filtering the view again with the same query gives the same view. */
  lemma FilterIdempotent(query: string, ds: seq<Record>)
    ensures Filter(query, Filter(query, ds)) == Filter(query, ds)
  {
    if Trim(query) != [] {
      var q := Lower(query);
      var p := RecordTest(q);
      var r := FilterBy(p, NarrowAll(ds, q));
      assert r == Filter(query, ds);
      forall k | 0 <= k < |r|
        ensures NarrowAll(r, q)[k] == r[k] && p(r[k])
      {
        NarrowedStaysNarrowed(ds, q, r[k]);
      }
      assert NarrowAll(r, q) == r;
      FilterByAll(p, r);
    }
  }
}
