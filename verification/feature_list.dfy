/** The updates the screens apply to their `features` list state (remove by
    id, replace by id, move, re-status, append) and the stream selection
    with the filter it drives. Each is the expression the handler passes to
    the state setter. */
module FeatureList {
  import opened Common
  import opened Records

  predicate HasId<O>(xs: seq<Feature<O>>, id: string)
  {
    exists i :: 0 <= i < |xs| && xs[i].id == id
  }

  /** No two entries share an id. */
  predicate UniqueIds<O>(xs: seq<Feature<O>>)
  {
    forall i, j :: 0 <= i < j < |xs| ==> xs[i].id != xs[j].id
  }

  function IdIsNot<O>(id: string): Feature<O> -> bool
  {
    (f: Feature<O>) => f.id != id
  }

  function IdIs<O>(id: string): Feature<O> -> bool
  {
    (f: Feature<O>) => f.id == id
  }

  /** `prev.filter((f) => f.id !== id)`: the delete handlers' update. */
  function RemoveId<O>(xs: seq<Feature<O>>, id: string): (r: seq<Feature<O>>)
    ensures |r| <= |xs|
    ensures forall i :: 0 <= i < |r| ==> r[i].id != id && r[i] in xs
    ensures forall i :: 0 <= i < |xs| && xs[i].id != id ==> xs[i] in r
    ensures !HasId(xs, id) ==> r == xs
  {
    Filter(xs, IdIsNot(id))
  }

  /** Removing an id that is present shortens the list by the number of its
      occurrences: by exactly one when ids are unique. */
  lemma RemovePresentId<O>(xs: seq<Feature<O>>, k: nat)
    requires k < |xs| && UniqueIds(xs)
    ensures |RemoveId(xs, xs[k].id)| == |xs| - 1
  {
    var id := xs[k].id;
    var p := IdIsNot<O>(id);
    var before, after := xs[..k], xs[k + 1..];
    assert xs == before + [xs[k]] + after;
    FilterAppend(before + [xs[k]], after, p);
    FilterAppend(before, [xs[k]], p);
    assert Filter(before, p) == before by {
      forall i | 0 <= i < |before| ensures p(before[i]) {
        assert before[i] == xs[i];
      }
    }
    assert Filter(after, p) == after by {
      forall i | 0 <= i < |after| ensures p(after[i]) {
        assert after[i] == xs[k + 1 + i];
      }
    }
    assert Filter([xs[k]], p) == [] by {
      assert !p(xs[k]);
    }
  }

  /** Filtering never brings two equal ids together. */
  lemma {:induction false} FilterKeepsUniqueIds<O>(xs: seq<Feature<O>>, p: Feature<O> -> bool)
    requires UniqueIds(xs)
    ensures UniqueIds(Filter(xs, p))
  {
    if |xs| > 0 {
      FilterKeepsUniqueIds(xs[1..], p);
      var rest := Filter(xs[1..], p);
      forall i | 0 <= i < |rest| ensures rest[i].id != xs[0].id {
        assert rest[i] in xs[1..];
        var j :| 0 <= j < |xs[1..]| && xs[1..][j] == rest[i];
        assert xs[j + 1] == rest[i];
      }
    }
  }

  /** `prev.map((f) => f.id === id ? g : f)`: the update handlers' replace. */
  function ReplaceId<O>(xs: seq<Feature<O>>, id: string, g: Feature<O>): (r: seq<Feature<O>>)
    ensures |r| == |xs|
    ensures forall i :: 0 <= i < |xs| && xs[i].id == id ==> r[i] == g
    ensures forall i :: 0 <= i < |xs| && xs[i].id != id ==> r[i] == xs[i]
  {
    MapWhere(xs, IdIs(id), (f: Feature<O>) => g)
  }

  /** `prev.map((f) => f.id === id ? { ...f, startAt, endAt } : f)`: the
      Gantt move. */
  function MoveId<O>(xs: seq<Feature<O>>, id: string, startAt: Date, endAt: Date): (r: seq<Feature<O>>)
    ensures |r| == |xs|
    ensures forall i :: 0 <= i < |xs| && xs[i].id == id ==> r[i] == xs[i].(startAt := startAt, endAt := endAt)
    ensures forall i :: 0 <= i < |xs| && xs[i].id != id ==> r[i] == xs[i]
  {
    MapWhere(xs, IdIs(id), (f: Feature<O>) => f.(startAt := startAt, endAt := endAt))
  }

  /** `features.map((f) => f.id === id ? { ...f, status } : f)`: the drag to
      another status column. */
  function SetStatusId<O>(xs: seq<Feature<O>>, id: string, status: StatusTag): (r: seq<Feature<O>>)
    ensures |r| == |xs|
    ensures forall i :: 0 <= i < |xs| && xs[i].id == id ==> r[i] == xs[i].(status := status)
    ensures forall i :: 0 <= i < |xs| && xs[i].id != id ==> r[i] == xs[i]
  {
    MapWhere(xs, IdIs(id), (f: Feature<O>) => f.(status := status))
  }

  /** Replacing, moving and re-statusing keep every id where it was, so they
      keep ids unique when the replacement carries the id it replaces. */
  lemma UpdatesKeepIds<O>(xs: seq<Feature<O>>, id: string, g: Feature<O>, s: Date, e: Date, st: StatusTag)
    requires UniqueIds(xs) && g.id == id
    ensures UniqueIds(ReplaceId(xs, id, g))
    ensures UniqueIds(MoveId(xs, id, s, e))
    ensures UniqueIds(SetStatusId(xs, id, st))
  {
    var r1, r2, r3 := ReplaceId(xs, id, g), MoveId(xs, id, s, e), SetStatusId(xs, id, st);
    assert forall i :: 0 <= i < |xs| ==> r1[i].id == xs[i].id && r2[i].id == xs[i].id && r3[i].id == xs[i].id;
  }

  /** Appending a record whose id is new keeps ids unique. */
  lemma AppendFreshId<O>(xs: seq<Feature<O>>, f: Feature<O>)
    requires UniqueIds(xs) && !HasId(xs, f.id)
    ensures UniqueIds(xs + [f])
  {
  }

  /** Removing keeps ids unique. */
  lemma RemoveKeepsUniqueIds<O>(xs: seq<Feature<O>>, id: string)
    requires UniqueIds(xs)
    ensures UniqueIds(RemoveId(xs, id)) && !HasId(RemoveId(xs, id), id)
  {
    FilterKeepsUniqueIds(xs, IdIsNot(id));
  }

  function NotName(name: string): string -> bool
  {
    (s: string) => s != name
  }

  /** `toggleStream`: drop the name if it is selected, append it otherwise. */
  function ToggleStream(selected: seq<string>, name: string): (r: seq<string>)
    ensures name in r <==> name !in selected
    ensures forall s :: s != name ==> (s in r <==> s in selected)
  {
    if name in selected then
      var r := Filter(selected, NotName(name));
      assert forall s :: s != name && s in selected ==> s in r by {
        forall s | s != name && s in selected ensures s in r {
          var i :| 0 <= i < |selected| && selected[i] == s;
        }
      }
      r
    else selected + [name]
  }

  /** Toggling the same stream twice restores the selected set. */
  lemma ToggleTwiceSameSet(selected: seq<string>, name: string)
    ensures forall s :: s in ToggleStream(ToggleStream(selected, name), name) <==> s in selected
  {
  }

  /** Starting from an unselected stream, toggling twice restores the list
      itself: the name is appended and then filtered out again. */
  lemma ToggleTwiceUnselected(selected: seq<string>, name: string)
    requires name !in selected
    ensures ToggleStream(ToggleStream(selected, name), name) == selected
  {
    var p := NotName(name);
    FilterAppend(selected, [name], p);
    assert Filter([name], p) == [];
  }

  function InStreams<O>(selected: seq<string>): Feature<O> -> bool
  {
    (f: Feature<O>) => f.product.name in selected
  }

  /** `filteredFeatures`: the features whose stream is selected, in order. */
  function StreamFilter<O>(xs: seq<Feature<O>>, selected: seq<string>): (r: seq<Feature<O>>)
    ensures forall i :: 0 <= i < |r| ==> r[i] in xs && r[i].product.name in selected
    ensures forall i :: 0 <= i < |xs| && xs[i].product.name in selected ==> xs[i] in r
    ensures (forall i :: 0 <= i < |xs| ==> xs[i].product.name in selected) ==> r == xs
  {
    Filter(xs, InStreams(selected))
  }

  /** With no stream selected the filter keeps nothing. */
  lemma StreamFilterNone<O>(xs: seq<Feature<O>>)
    ensures StreamFilter(xs, []) == []
  {
    FilterNone(xs, InStreams([]));
  }

  /** The stream filter keeps the relative order of what it keeps: filtering a
      concatenation is concatenating the filtered parts. */
  lemma StreamFilterOrder<O>(xs: seq<Feature<O>>, ys: seq<Feature<O>>, selected: seq<string>)
    ensures StreamFilter(xs + ys, selected) == StreamFilter(xs, selected) + StreamFilter(ys, selected)
  {
    FilterAppend(xs, ys, InStreams(selected));
  }

  /** The stream filter keeps each entry of a selected stream as many times as
      it occurs and no entry of another stream. */
  lemma StreamFilterCount<O>(xs: seq<Feature<O>>, selected: seq<string>, f: Feature<O>)
    ensures multiset(StreamFilter(xs, selected))[f] ==
      if f.product.name in selected then multiset(xs)[f] else 0
  {
    FilterCount(xs, InStreams(selected), f);
  }
}
