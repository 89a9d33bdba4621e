/** Which Tracks refer to a location (active_messages/retention.py): one location at a time, and all of them
    in one scan of the Track table, both through keyset pages. */
module OwnershipScan {
  import opened Common

  type TrackId = nat
  type Path = nat
  /** (device, inode). */
  type Identity = nat

  /** One Track's two stored paths; None is an empty column. */
  datatype Row = Row(id: TrackId, filepath: Option<Path>, waveform: Option<Path>)
  datatype Field = FilepathField | WaveformField
  datatype Kind = ByObject | ByName
  datatype Reference = Reference(id: TrackId, field: Field, kind: Kind)

  /** What a path resolves to now: the object there, if any, and its resolved name. */
  datatype Resolution = Resolution(object_: Option<Identity>, name: Path)
  /** None: the path cannot be resolved. */
  type Files = Path -> Option<Resolution>

  /** A location asked about: its spelling, its resolved name, and the regular file at it. */
  datatype Location = Location(path: Path, name: Path, identity: Option<Identity>)

  datatype Scan<T> = Found(value: T) | Unverifiable(id: TrackId, field: Field)

  // -- the reference definition -------------------------------------------------------------------------------

  /** `_reference_kind` of a path that resolves. */
  function KindOf(r: Resolution, l: Location): Option<Kind> {
    if r.object_.Some? && l.identity == r.object_ then Some(ByObject)
    else if r.name == l.name then Some(ByName)
    else None
  }

  function ReferencesOfValue(id: TrackId, field: Field, r: Resolution, l: Location): seq<Reference> {
    var kind := KindOf(r, l);
    if kind.Some? then [Reference(id, field, kind.value)] else []
  }

  function ValueOf(row: Row, field: Field): Option<Path> {
    if field.FilepathField? then row.filepath else row.waveform
  }

  /** What one column of one row adds for a location. */
  function Column(files: Files, row: Row, field: Field, l: Location): seq<Reference> {
    var value := ValueOf(row, field);
    if value.None? || files(value.value).None? then [] else ReferencesOfValue(row.id, field, files(value.value).value, l)
  }

  predicate Resolves(files: Files, row: Row, field: Field) {
    ValueOf(row, field).Some? ==> files(ValueOf(row, field).value).Some?
  }

  /** Every reference of the table to a location, in table order. */
  function References(files: Files, rows: seq<Row>, l: Location): seq<Reference> {
    if rows == [] then []
    else References(files, rows[..|rows| - 1], l) + Column(files, rows[|rows| - 1], FilepathField, l) +
         Column(files, rows[|rows| - 1], WaveformField, l)
  }

  predicate AllResolve(files: Files, rows: seq<Row>) {
    forall i :: 0 <= i < |rows| ==> Resolves(files, rows[i], FilepathField) && Resolves(files, rows[i], WaveformField)
  }

  /** The first column, in table order, whose path cannot be resolved. */
  predicate FirstUnresolved(files: Files, rows: seq<Row>, id: TrackId, field: Field) {
    exists k :: 0 <= k < |rows| && rows[k].id == id && FirstAt(files, rows, k, field)
  }

  predicate FirstAt(files: Files, rows: seq<Row>, k: nat, field: Field)
    requires k < |rows|
  {
    && AllResolve(files, rows[..k]) && !Resolves(files, rows[k], field)
    && (field.WaveformField? ==> Resolves(files, rows[k], FilepathField))
  }

  // -- keyset pages --------------------------------------------------------------------------------------------

  predicate ByKey(rows: seq<Row>) {
    forall i, j :: 0 <= i < j < |rows| ==> rows[i].id < rows[j].id
  }

  /** `filter(pk__gt=last).order_by("pk")[:size]` of a table kept in key order. */
  function Rest(rows: seq<Row>, last: Option<TrackId>): seq<Row> {
    if rows == [] || last.None? || rows[0].id > last.value then rows else Rest(rows[1..], last)
  }

  function Page(rows: seq<Row>, last: Option<TrackId>, size: nat): seq<Row> {
    var rest := Rest(rows, last);
    if |rest| <= size then rest else rest[..size]
  }

  lemma {:induction false} RestIsSuffix(rows: seq<Row>, k: nat)
    requires ByKey(rows) && 0 < k <= |rows|
    ensures Rest(rows, Some(rows[k - 1].id)) == rows[k..]
  {
    if k == 1 {
      if |rows| > 1 {
        assert rows[1..][0].id > rows[0].id;
      }
      assert Rest(rows[1..], Some(rows[0].id)) == rows[1..];
    } else {
      RestIsSuffix(rows[1..], k - 1);
      assert rows[1..][k - 2] == rows[k - 1] && rows[1..][k - 1..] == rows[k..];
    }
  }

  /** The next page after the first `k` rows have been read is the next rows, and a short page is the last. */
  lemma PageContinues(rows: seq<Row>, k: nat, size: nat)
    requires ByKey(rows) && k <= |rows| && size > 0
    ensures var last := if k == 0 then None else Some(rows[k - 1].id);
            var page := Page(rows, last, size);
            && k + |page| <= |rows| && page == rows[k..k + |page|]
            && (|page| < size ==> k + |page| == |rows|)
            && (|page| >= size ==> |page| == size)
  {
    if k > 0 {
      RestIsSuffix(rows, k);
    }
  }

  // -- one location ------------------------------------------------------------------------------------------------

  lemma ReferencesStep(files: Files, rows: seq<Row>, k: nat, l: Location)
    requires k < |rows|
    ensures rows[..k + 1] == rows[..k] + [rows[k]]
    ensures References(files, rows[..k + 1], l) ==
              References(files, rows[..k], l) + Column(files, rows[k], FilepathField, l) +
              Column(files, rows[k], WaveformField, l)
  {
    assert rows[..k + 1][..k] == rows[..k];
  }

  lemma AllResolveStep(files: Files, rows: seq<Row>, k: nat)
    requires k < |rows|
    ensures AllResolve(files, rows[..k + 1]) <==>
              AllResolve(files, rows[..k]) && Resolves(files, rows[k], FilepathField) && Resolves(files, rows[k], WaveformField)
    ensures AllResolve(files, rows) ==> AllResolve(files, rows[..k + 1])
  {
    assert forall i :: 0 <= i < k ==> rows[..k][i] == rows[..k + 1][i];
    assert rows[..k + 1][k] == rows[k];
  }

  /** `track_references`: pages of `size` rows; every row of the table is read exactly once, in key order. */
  method TrackReferences(files: Files, rows: seq<Row>, l: Location, size: nat)
    returns (r: Scan<seq<Reference>>, ghost read: seq<Row>)
    requires ByKey(rows) && size > 0
    ensures r.Found? <==> AllResolve(files, rows)
    ensures r.Found? ==> r.value == References(files, rows, l) && read == rows
    ensures r.Unverifiable? ==> FirstUnresolved(files, rows, r.id, r.field)
  {
    hide Page, Rest, References, Column, AllResolve, Resolves;
    var found: seq<Reference> := [];
    var last: Option<TrackId> := None;
    var start := 0;
    read := [];
    NothingRead(files, rows, l);
    while true
      invariant 0 <= start <= |rows| && read == rows[..start]
      invariant last == if start == 0 then None else Some(rows[start - 1].id)
      invariant found == References(files, rows[..start], l) && AllResolve(files, rows[..start])
      decreases |rows| - start
    {
      PageContinues(rows, start, size);
      var page := Page(rows, last, size);
      for k := start to start + |page|
        invariant read == rows[..k]
        invariant found == References(files, rows[..k], l) && AllResolve(files, rows[..k])
      {
        var row := page[k - start];
        assert row == rows[k];
        AllResolveStep(files, rows, k);
        ReferencesStep(files, rows, k, l);
        if !Resolves(files, row, FilepathField) {
          assert FirstAt(files, rows, k, FilepathField);
          return Unverifiable(row.id, FilepathField), read;
        }
        if !Resolves(files, row, WaveformField) {
          assert FirstAt(files, rows, k, WaveformField);
          return Unverifiable(row.id, WaveformField), read;
        }
        found := found + Column(files, row, FilepathField, l) + Column(files, row, WaveformField, l);
        read := read + [row];
      }
      start := start + |page|;
      if |page| < size {
        assert rows[..start] == rows;
        return Found(found), read;
      }
      last := Some(page[|page| - 1].id);
    }
  }

  lemma NothingRead(files: Files, rows: seq<Row>, l: Location)
    ensures rows[..0] == [] && References(files, rows[..0], l) == [] && AllResolve(files, rows[..0])
  {
  }

  // -- all locations at once ----------------------------------------------------------------------------------------

  /** How often a location is listed. */
  function Listed(locations: seq<Location>, l: Location): nat {
    if locations == [] then 0
    else Listed(locations[..|locations| - 1], l) + if locations[|locations| - 1] == l then 1 else 0
  }

  function Copies(s: seq<Reference>, n: nat): seq<Reference> {
    if n == 0 then [] else Copies(s, n - 1) + s
  }

  /** What each reference contributes when a location is listed `n` times. */
  function Repeated(s: seq<Reference>, n: nat): seq<Reference> {
    if s == [] then [] else Repeated(s[..|s| - 1], n) + Copies([s[|s| - 1]], n)
  }

  lemma RepeatedAppend(s: seq<Reference>, e: Reference, n: nat)
    ensures Repeated(s + [e], n) == Repeated(s, n) + Copies([e], n)
  {
    assert (s + [e])[..|s|] == s;
  }

  lemma RepeatedColumn(s: seq<Reference>, c: seq<Reference>, n: nat)
    requires |c| <= 1
    ensures Repeated(s + c, n) == Repeated(s, n) + if c == [] then [] else Copies(c, n)
  {
    if c == [] {
      assert s + c == s;
    } else {
      assert c == [c[0]];
      RepeatedAppend(s, c[0], n);
    }
  }

  /** Listed once, a location's result is exactly the scan of it alone. */
  lemma {:induction false} RepeatedOnce(s: seq<Reference>)
    ensures Repeated(s, 1) == s
  {
    if s != [] {
      RepeatedOnce(s[..|s| - 1]);
      assert Copies([s[|s| - 1]], 0) == [];
    }
  }

  lemma {:induction false} RepeatedIsLonger(s: seq<Reference>, n: nat)
    requires n >= 2
    ensures |Repeated(s, n)| >= 2 * |s|
  {
    if s != [] {
      RepeatedIsLonger(s[..|s| - 1], n);
      CopiesLength(s[|s| - 1], n);
    }
  }

  lemma {:induction false} CopiesLength(e: Reference, n: nat)
    ensures |Copies([e], n)| == n
  {
    if n > 0 {
      CopiesLength(e, n - 1);
    }
  }

  predicate ObjectMatch(l: Location, r: Resolution) {
    r.object_.Some? && l.identity == r.object_
  }

  predicate Picks(l: Location, r: Resolution, kind: Kind) {
    if kind.ByObject? then ObjectMatch(l, r) else NameOnly(l, r)
  }

  function Picked(l: Location, r: Resolution, e: Reference): seq<Reference> {
    if Picks(l, r, e.kind) then [e] else []
  }

  /** The locations one reference belongs to, in the order they were listed. */
  method AddReference(found: map<Location, seq<Reference>>, locations: seq<Location>, r: Resolution, e: Reference)
    returns (n: map<Location, seq<Reference>>)
    requires forall i :: 0 <= i < |locations| ==> locations[i] in found
    ensures n.Keys == found.Keys
    ensures forall l :: l in found ==> n[l] == found[l] + Copies(Picked(l, r, e), Listed(locations, l))
  {
    hide Copies, Listed, Picks;
    n := found;
    forall l ensures Listed(locations[..0], l) == 0 && Copies(Picked(l, r, e), 0) == [] {
      ListedNone(locations, l);
      CopiesStep(Picked(l, r, e), 0);
    }
    for i := 0 to |locations|
      invariant n.Keys == found.Keys
      invariant forall l :: l in found ==> n[l] == found[l] + Copies(Picked(l, r, e), Listed(locations[..i], l))
    {
      var x := locations[i];
      forall l | l in found
        ensures Copies(Picked(l, r, e), Listed(locations[..i + 1], l)) ==
                  Copies(Picked(l, r, e), Listed(locations[..i], l)) + if l == x then Picked(l, r, e) else []
      {
        ListedStep(locations, i, l);
        CopiesStep(Picked(l, r, e), Listed(locations[..i], l));
      }
      if Picks(x, r, e.kind) {
        n := n[x := n[x] + [e]];
      }
    }
    assert locations[..|locations|] == locations;
  }

  lemma ListedNone(locations: seq<Location>, l: Location)
    ensures Listed(locations[..0], l) == 0
  {
  }

  /** One resolved column, given to every location it matches: first by object, then by name where it did not. */
  method AddColumn(found: map<Location, seq<Reference>>, locations: seq<Location>, id: TrackId, field: Field, r: Resolution)
    returns (n: map<Location, seq<Reference>>)
    requires forall i :: 0 <= i < |locations| ==> locations[i] in found
    ensures n.Keys == found.Keys
    ensures forall l :: l in found ==>
              n[l] == found[l] + Copies(ReferencesOfValue(id, field, r, l), Listed(locations, l))
  {
    hide Copies, Listed;
    n := AddReference(found, locations, r, Reference(id, field, ByObject));
    n := AddReference(n, locations, r, Reference(id, field, ByName));
    forall l | l in found
      ensures n[l] == found[l] + Copies(ReferencesOfValue(id, field, r, l), Listed(locations, l))
    {
      CopiesStep([], Listed(locations, l));
    }
  }

  predicate NameOnly(l: Location, r: Resolution) {
    !ObjectMatch(l, r) && r.name == l.name
  }

  lemma ListedStep(locations: seq<Location>, i: nat, l: Location)
    requires i < |locations|
    ensures Listed(locations[..i + 1], l) == Listed(locations[..i], l) + if locations[i] == l then 1 else 0
  {
    assert locations[..i + 1][..i] == locations[..i];
  }

  lemma CopiesStep(s: seq<Reference>, n: nat)
    ensures Copies(s, n + 1) == Copies(s, n) + s
    ensures Copies([], n) == []
    ensures Copies(s, 0) == []
  {
    CopiesOfNothing(n);
  }

  lemma {:induction false} CopiesOfNothing(n: nat)
    ensures Copies([], n) == []
  {
    if n > 0 {
      CopiesOfNothing(n - 1);
    }
  }

  ghost predicate Answers(files: Files, rows: seq<Row>, locations: seq<Location>, found: map<Location, seq<Reference>>) {
    && (forall l :: l in found <==> l in locations)
    && forall l :: l in found ==> found[l] == Repeated(References(files, rows, l), Listed(locations, l))
  }

  lemma AnswersStep(files: Files, rows: seq<Row>, k: nat, l: Location, n: nat)
    requires k < |rows|
    ensures Repeated(References(files, rows[..k + 1], l), n) ==
              Repeated(References(files, rows[..k], l), n) + Copies(Column(files, rows[k], FilepathField, l), n) +
              Copies(Column(files, rows[k], WaveformField, l), n)
  {
    ReferencesStep(files, rows, k, l);
    var s := References(files, rows[..k], l);
    var a, b := Column(files, rows[k], FilepathField, l), Column(files, rows[k], WaveformField, l);
    assert |a| <= 1 && |b| <= 1;
    hide References, Column, Repeated, Copies;
    RepeatedColumn(s, a, n);
    RepeatedColumn(s + a, b, n);
    CopiesOfNothing(n);
  }

  /** One row, both columns. */
  method AddRow(files: Files, rows: seq<Row>, k: nat, found: map<Location, seq<Reference>>, locations: seq<Location>)
    returns (n: map<Location, seq<Reference>>)
    requires k < |rows| && Answers(files, rows[..k], locations, found)
    requires Resolves(files, rows[k], FilepathField) && Resolves(files, rows[k], WaveformField)
    ensures Answers(files, rows[..k + 1], locations, n)
  {
    hide References, Repeated, Copies;
    n := AddColumnOf(files, rows[k], FilepathField, found, locations);
    n := AddColumnOf(files, rows[k], WaveformField, n, locations);
    forall l | l in n ensures n[l] == Repeated(References(files, rows[..k + 1], l), Listed(locations, l)) {
      AnswersStep(files, rows, k, l, Listed(locations, l));
    }
  }

  method AddColumnOf(files: Files, row: Row, field: Field, found: map<Location, seq<Reference>>, locations: seq<Location>)
    returns (n: map<Location, seq<Reference>>)
    requires Resolves(files, row, field) && forall i :: 0 <= i < |locations| ==> locations[i] in found
    ensures n.Keys == found.Keys
    ensures forall l :: l in found ==> n[l] == found[l] + Copies(Column(files, row, field, l), Listed(locations, l))
  {
    n := found;
    var value := ValueOf(row, field);
    if value.Some? {
      n := AddColumn(n, locations, row.id, field, files(value.value).value);
    } else {
      forall l | l in found ensures n[l] == found[l] + Copies(Column(files, row, field, l), Listed(locations, l)) {
        CopiesOfNothing(Listed(locations, l));
      }
    }
  }

  /** `references_by_location`: one scan, every row read once. */
  method ReferencesByLocation(files: Files, rows: seq<Row>, locations: seq<Location>, size: nat)
    returns (r: Scan<map<Location, seq<Reference>>>)
    requires ByKey(rows) && size > 0
    ensures locations == [] ==> r == Found(map[])
    ensures locations != [] ==> (r.Found? <==> AllResolve(files, rows))
    ensures r.Unverifiable? ==> FirstUnresolved(files, rows, r.id, r.field)
    ensures r.Found? ==> (forall l :: l in r.value <==> l in locations)
    ensures r.Found? ==> Answers(files, rows, locations, r.value)
  {
    hide Page, Rest, References, Column, AllResolve, Resolves, Repeated, Copies;
    if locations == [] {
      return Found(map[]);
    }
    var found := NoReferences(files, rows, locations);
    var last: Option<TrackId> := None;
    var start := 0;
    NothingRead(files, rows, locations[0]);
    while true
      invariant 0 <= start <= |rows|
      invariant last == if start == 0 then None else Some(rows[start - 1].id)
      invariant Answers(files, rows[..start], locations, found) && AllResolve(files, rows[..start])
      decreases |rows| - start
    {
      hide Answers;
      PageContinues(rows, start, size);
      var page := Page(rows, last, size);
      for k := start to start + |page|
        invariant Answers(files, rows[..k], locations, found) && AllResolve(files, rows[..k])
      {
        var row := page[k - start];
        assert row == rows[k];
        AllResolveStep(files, rows, k);
        if !Resolves(files, row, FilepathField) {
          assert FirstAt(files, rows, k, FilepathField);
          return Unverifiable(row.id, FilepathField);
        }
        if !Resolves(files, row, WaveformField) {
          assert FirstAt(files, rows, k, WaveformField);
          return Unverifiable(row.id, WaveformField);
        }
        found := AddRow(files, rows, k, found, locations);
      }
      start := start + |page|;
      if |page| < size {
        assert rows[..start] == rows;
        AnswersKeys(files, rows, locations, found);
        return Found(found);
      }
      last := Some(page[|page| - 1].id);
    }
  }

  lemma AnswersKeys(files: Files, rows: seq<Row>, locations: seq<Location>, found: map<Location, seq<Reference>>)
    requires Answers(files, rows, locations, found)
    ensures forall l :: l in found <==> l in locations
  {
  }

  method NoReferences(files: Files, rows: seq<Row>, locations: seq<Location>) returns (found: map<Location, seq<Reference>>)
    ensures Answers(files, rows[..0], locations, found)
  {
    found := map[];
    for i := 0 to |locations|
      invariant forall l :: l in found <==> l in locations[..i]
      invariant forall l :: l in found ==> found[l] == []
    {
      assert locations[..i + 1] == locations[..i] + [locations[i]];
      found := found[locations[i] := []];
    }
    assert locations[..|locations|] == locations;
  }

  /** The batched scan gives a location exactly what the scan of it alone gives if and only if it is listed once or
      nothing refers to it: a location listed twice gets every reference twice. */
  lemma BatchedIsSingleExactly(files: Files, rows: seq<Row>, locations: seq<Location>, found: map<Location, seq<Reference>>,
                               l: Location)
    requires Answers(files, rows, locations, found) && l in locations
    ensures found[l] == References(files, rows, l) <==>
              Listed(locations, l) == 1 || References(files, rows, l) == []
  {
    hide References, Listed;
    ListedPositive(locations, l);
    RepeatsExactly(References(files, rows, l), Listed(locations, l));
  }

  /** A library where every path resolves to one file. */
  function OneFile(path: Path): Option<Resolution> {
    Some(Resolution(Some(5), 0))
  }

  /** Where they differ: one Track with one reference to a location listed twice. The scan of the location alone finds
      the reference; the batched one answers it twice. */
  lemma ListedTwiceDiffers(found: map<Location, seq<Reference>>)
    requires var l := Location(0, 0, Some(5)); Answers(OneFile, [Row(1, Some(0), None)], [l, l], found)
    ensures var l, reference := Location(0, 0, Some(5)), Reference(1, FilepathField, ByObject);
            && References(OneFile, [Row(1, Some(0), None)], l) == [reference]
            && l in found && found[l] == [reference, reference]
  {
    var l, row, reference := Location(0, 0, Some(5)), Row(1, Some(0), None), Reference(1, FilepathField, ByObject);
    assert [row][..0] == [];
    assert References(OneFile, [row], l) == [] + [reference] + [];
    ListedNone([l, l], l);
    ListedStep([l, l], 0, l);
    ListedStep([l, l], 1, l);
    assert [l, l][..2] == [l, l];
    assert [reference][..0] == [];
    assert Copies([reference], 2) == Copies([reference], 1) + [reference];
    assert Copies([reference], 1) == Copies([reference], 0) + [reference];
    assert Repeated([reference], 2) == Repeated([], 2) + Copies([reference], 2);
  }

  lemma RepeatsExactly(s: seq<Reference>, n: nat)
    requires n >= 1
    ensures Repeated(s, n) == s <==> n == 1 || s == []
  {
    RepeatedOnce(s);
    if n > 1 {
      RepeatedIsLonger(s, n);
    }
  }

  lemma {:induction false} ListedPositive(locations: seq<Location>, l: Location)
    requires l in locations
    ensures Listed(locations, l) >= 1
  {
    if locations[|locations| - 1] != l {
      assert locations == locations[..|locations| - 1] + [locations[|locations| - 1]];
      ListedPositive(locations[..|locations| - 1], l);
    }
  }
}
