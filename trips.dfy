/**
 * A user's trips: the JSON object `{trip name: trip}` stored for that user. Python keeps the
 * keys of a dict in insertion order and the bot shows and scans trips in that order, so the
 * trips are a sequence of entries whose names are distinct.
 */
module Trips {
  import opened Wrappers

  /** One trip dict: `start_date`, `end_date`, and the keys that may be missing. The dates are
      the raw texts the user typed. */
  datatype Trip = Trip(
    startDate: string,
    endDate: string,
    destination: Option<string>,
    files: Option<seq<string>>,
    title: Option<string>)

  datatype Entry = Entry(name: string, info: Trip)

  predicate DistinctNames(m: seq<Entry>) {
    forall i, j :: 0 <= i < j < |m| ==> m[i].name != m[j].name
  }

  /** A dict of trips: no name occurs twice. */
  type TripMap = m: seq<Entry> | DistinctNames(m) witness []

  /** The position of `name` among the keys, if it is one. */
  function IndexOf(m: seq<Entry>, name: string): (r: Option<nat>)
    ensures r.Some? ==> r.value < |m| && m[r.value].name == name
    ensures r.None? ==> forall j :: 0 <= j < |m| ==> m[j].name != name
  {
    if m == [] then None
    else if m[0].name == name then Some(0)
    else match IndexOf(m[1..], name)
      case None => None
      case Some(k) => Some(k + 1)
  }

  /** `name in data`. */
  predicate Has(m: seq<Entry>, name: string) {
    IndexOf(m, name).Some?
  }

  /** `data[name]`. */
  function Get(m: seq<Entry>, name: string): Trip
    requires Has(m, name)
  {
    m[IndexOf(m, name).value].info
  }

  /** In a dict the position of a key is the only one holding it. */
  lemma IndexOfUnique(m: TripMap, name: string, i: nat)
    requires i < |m| && m[i].name == name
    ensures IndexOf(m, name) == Some(i)
  {
  }

  /** The keys in dict order, a plain projection; what operations do to it is stated by `Put`,
      `Pop` and `AppendFile`. */
  function Names(m: seq<Entry>): (r: seq<string>)
    ensures |r| == |m| && forall i :: 0 <= i < |m| ==> r[i] == m[i].name
  {
    seq(|m|, i requires 0 <= i < |m| => m[i].name)
  }

  /** `saved` is `data` after `data[name] = t`: an existing key keeps its place and gets the
      new value, a new key is added at the end, and every other key keeps its value. */
  ghost predicate Assigns(data: TripMap, name: string, t: Trip, saved: TripMap) {
    && Has(saved, name) && Get(saved, name) == t
    && (Has(data, name) ==> Names(saved) == Names(data))
    && (!Has(data, name) ==> saved == data + [Entry(name, t)])
    && (forall n :: n != name ==> (Has(saved, n) <==> Has(data, n)))
    && (forall n :: n != name && Has(data, n) ==> Get(saved, n) == Get(data, n))
  }

  /** `data[name] = t`: an existing key keeps its place and gets the new value, a new key is
      added at the end; every other key keeps its value. */
  function Put(m: TripMap, name: string, t: Trip): (r: TripMap)
    ensures Assigns(m, name, t, r)
  {
    match IndexOf(m, name)
    case Some(k) =>
      var r := m[k := Entry(name, t)];
      assert DistinctNames(r);
      forall n | n != name ensures Has(r, n) <==> Has(m, n) {
        if Has(m, n) { IndexOfUnique(r, n, IndexOf(m, n).value); }
        if Has(r, n) { IndexOfUnique(m, n, IndexOf(r, n).value); }
      }
      IndexOfUnique(r, name, k);
      r
    case None =>
      var r := m + [Entry(name, t)];
      assert DistinctNames(r);
      forall n | n != name ensures Has(r, n) <==> Has(m, n) {
        if Has(m, n) { IndexOfUnique(r, n, IndexOf(m, n).value); }
        if Has(r, n) { IndexOfUnique(m, n, IndexOf(r, n).value); }
      }
      IndexOfUnique(r, name, |m|);
      r
  }

  /** Removing the entry at `k` keeps the names distinct and the other names in order. */
  lemma RemoveAtKeepsOrder(m: TripMap, k: nat)
    requires k < |m|
    ensures DistinctNames(m[..k] + m[k + 1..])
    ensures Names(m[..k] + m[k + 1..]) == Names(m[..k]) + Names(m[k + 1..])
  {
    var r := m[..k] + m[k + 1..];
    forall i, j | 0 <= i < j < |r| ensures r[i].name != r[j].name {
      var i', j' := if i < k then i else i + 1, if j < k then j else j + 1;
      assert r[i] == m[i'] && r[j] == m[j'];
    }
  }

  /** Removing the entry at `k` keeps every other key, with its value. */
  lemma RemoveAtKeepsOthers(m: TripMap, k: nat, r: TripMap)
    requires k < |m| && r == m[..k] + m[k + 1..]
    ensures forall n :: n != m[k].name ==> (Has(r, n) <==> Has(m, n)) && (Has(m, n) ==> Get(r, n) == Get(m, n))
  {
    forall n | n != m[k].name ensures (Has(r, n) <==> Has(m, n)) && (Has(m, n) ==> Get(r, n) == Get(m, n)) {
      if Has(m, n) {
        var i := IndexOf(m, n).value;
        var i' := if i < k then i else i - 1;
        assert r[i'] == m[i];
        IndexOfUnique(r, n, i');
      }
      if Has(r, n) {
        var i := IndexOf(r, n).value;
        var i' := if i < k then i else i + 1;
        assert r[i] == m[i'];
        IndexOfUnique(m, n, i');
      }
    }
  }

  /** `data.pop(name)` for a present key: the key is gone, the others keep their values and
      their order. */
  function Pop(m: TripMap, name: string): (r: TripMap)
    requires Has(m, name)
    ensures !Has(r, name) && |r| == |m| - 1
    ensures forall n :: n != name ==> (Has(r, n) <==> Has(m, n))
    ensures forall n :: n != name && Has(m, n) ==> Get(r, n) == Get(m, n)
    ensures exists k :: 0 <= k < |m| && m[k].name == name && Names(r) == Names(m[..k]) + Names(m[k + 1..])
  {
    var k := IndexOf(m, name).value;
    RemoveAtKeepsOrder(m, k);
    var r: TripMap := m[..k] + m[k + 1..];
    RemoveAtKeepsOthers(m, k, r);
    r
  }

  /** A trip's file list, or the empty list when the key is missing. */
  function FilesOf(t: Trip): seq<string> {
    t.files.GetOr([])
  }

  /** `if "files" not in data[name]: data[name]["files"] = []` followed by
      `data[name]["files"].append(path)`: one more path at the end of that trip's list, every
      other field and every other trip as it was, the keys in the same order. */
  function AppendFile(m: TripMap, name: string, path: string): (r: TripMap)
    requires Has(m, name)
    ensures Names(r) == Names(m) && Has(r, name)
    ensures Get(r, name) == Get(m, name).(files := Some(FilesOf(Get(m, name)) + [path]))
    ensures forall n :: n != name && Has(m, n) ==> Get(r, n) == Get(m, n)
  {
    var t := Get(m, name);
    var t' := if t.files.None? then t.(files := Some([])) else t;
    Put(m, name, t'.(files := Some(t'.files.value + [path])))
  }
}
