/**
  The run timeline (src/airgap_sync/monitor/timeline.py): two stores that are paged separately and
  by different keys are merged and joined under one cursor. Walking the pages yields the records
  of one unpaged merge, in order and once each.
 */
module Timeline {
  import opened Wrappers

  // --- Keys ---

  // A text is its position in the order of texts, which is the same in both databases.
  type Text = nat

  const EMPTY: Text := 0

  datatype Key = Key(run: Text, node: Text, database: Text, table: Text)

  predicate Less(a: Key, b: Key) {
    || a.run < b.run
    || (a.run == b.run && a.node < b.node)
    || (a.run == b.run && a.node == b.node && a.database < b.database)
    || (a.run == b.run && a.node == b.node && a.database == b.database && a.table < b.table)
  }

  predicate AtMost(a: Key, b: Key) {
    a == b || Less(a, b)
  }

  // --- The two stores ---

  datatype Source = Source(key: Key, facts: nat)

  // A destination row knows no node.
  datatype Destination = Destination(run: Text, database: Text, table: Text, facts: nat)

  datatype Identity = Identity(run: Text, database: Text, table: Text)

  function SourceIdentity(s: Source): Identity {
    Identity(s.key.run, s.key.database, s.key.table)
  }

  function DestinationIdentity(d: Destination): Identity {
    Identity(d.run, d.database, d.table)
  }

  function DestinationKey(d: Destination): Key {
    Key(d.run, EMPTY, d.database, d.table)
  }

  // Rows in the order of their primary keys: run, node, database and table for sources, which
  // always have a node, and run for destinations.
  datatype Stores = Stores(sources: seq<Source>, destinations: seq<Destination>)

  predicate WellFormed(st: Stores) {
    && (forall i, j :: 0 <= i < j < |st.sources| ==> Less(st.sources[i].key, st.sources[j].key))
    && (forall s :: s in st.sources ==> s.key.node != EMPTY)
    && (forall i, j :: 0 <= i < j < |st.destinations| ==> st.destinations[i].run < st.destinations[j].run)
    && (forall d :: d in st.destinations ==> d.run != EMPTY)
  }

  datatype Filter = Filter(node: Option<Text>, database: Option<Text>, table: Option<Text>, run: Option<Text>)

  predicate Admits(wanted: Option<Text>, value: Text) {
    wanted.None? || wanted.value == value
  }

  predicate AdmitsIdentity(f: Filter, id: Identity) {
    Admits(f.database, id.database) && Admits(f.table, id.table) && Admits(f.run, id.run)
  }

  predicate AdmitsSource(f: Filter, s: Source) {
    Admits(f.node, s.key.node) && AdmitsIdentity(f, SourceIdentity(s))
  }

  // Destination rows cannot be selected by node.
  predicate AdmitsDestination(f: Filter, d: Destination) {
    f.node.None? && AdmitsIdentity(f, DestinationIdentity(d))
  }

  // --- The unpaged merge ---

  datatype Association = UNIQUE | AMBIGUOUS | UNRESOLVED

  datatype Item = Item(source: Option<Source>, destination: Option<Destination>, association: Association)

  datatype Entry = Entry(key: Key, item: Item)

  // The sources of one run of one table; more than one if several nodes report it.
  function Matching(sources: seq<Source>, id: Identity): (r: seq<Source>)
    ensures forall s :: s in r <==> s in sources && SourceIdentity(s) == id
  {
    if sources == [] then []
    else
      var rest := Matching(sources[1..], id);
      if SourceIdentity(sources[0]) == id then [sources[0]] + rest else rest
  }

  function Find(destinations: seq<Destination>, id: Identity): (r: Option<Destination>)
    ensures r.Some? ==> r.value in destinations && DestinationIdentity(r.value) == id
    ensures r.None? ==> forall d :: d in destinations ==> DestinationIdentity(d) != id
  {
    if destinations == [] then None
    else if DestinationIdentity(destinations[0]) == id then Some(destinations[0])
    else Find(destinations[1..], id)
  }

  predicate Joined(st: Stores, id: Identity) {
    |Matching(st.sources, id)| == 1
  }

  function SourceEntry(st: Stores, s: Source): Entry {
    var d := Find(st.destinations, SourceIdentity(s));
    Entry(s.key,
          if d.None? then Item(Some(s), None, UNRESOLVED)
          else if Joined(st, SourceIdentity(s)) then Item(Some(s), d, UNIQUE)
          else Item(Some(s), None, AMBIGUOUS))
  }

  function DestinationEntry(st: Stores, d: Destination): Entry {
    Entry(DestinationKey(d),
          Item(None, Some(d), if Matching(st.sources, DestinationIdentity(d)) == [] then UNRESOLVED else AMBIGUOUS))
  }

  // The records of the merge: every source with its destination if the two belong together
  // uniquely, and every destination that belongs to no source or to several.
  predicate Belongs(st: Stores, f: Filter, e: Entry) {
    || (exists s :: s in st.sources && AdmitsSource(f, s) && e == SourceEntry(st, s))
    || (exists d :: d in st.destinations && AdmitsDestination(f, d) && !Joined(st, DestinationIdentity(d)) && e == DestinationEntry(st, d))
  }

  // Every key has at most one record.
  lemma OneRecordPerKey(st: Stores, f: Filter, a: Entry, b: Entry)
    requires WellFormed(st) && Belongs(st, f, a) && Belongs(st, f, b) && a.key == b.key
    ensures a == b
  {
    if a.key.node == EMPTY {
      assert forall s :: s in st.sources ==> SourceEntry(st, s).key.node != EMPTY;
    }
  }

  // --- The queries ---

  function SourcesAfter(sources: seq<Source>, after: Key, f: Filter): (r: seq<Source>)
    requires forall i, j :: 0 <= i < j < |sources| ==> Less(sources[i].key, sources[j].key)
    ensures forall s :: s in r <==> s in sources && Less(after, s.key) && AdmitsSource(f, s)
    ensures forall i, j :: 0 <= i < j < |r| ==> Less(r[i].key, r[j].key)
  {
    if sources == [] then []
    else
      var rest := SourcesAfter(sources[1..], after, f);
      if Less(after, sources[0].key) && AdmitsSource(f, sources[0]) then [sources[0]] + rest else rest
  }

  // After a key with a node the run is done; otherwise the row at the key is read again.
  predicate ReadAgain(after: Key, d: Destination) {
    if after.node != EMPTY then after.run < d.run else AtMost(after, DestinationKey(d))
  }

  function DestinationsAfter(destinations: seq<Destination>, after: Key, f: Filter): (r: seq<Destination>)
    requires forall i, j :: 0 <= i < j < |destinations| ==> destinations[i].run < destinations[j].run
    ensures forall d :: d in r <==> d in destinations && ReadAgain(after, d) && AdmitsDestination(f, d)
    ensures forall i, j :: 0 <= i < j < |r| ==> r[i].run < r[j].run
  {
    if destinations == [] then []
    else
      var rest := DestinationsAfter(destinations[1..], after, f);
      assert forall d :: d in rest ==> destinations[0].run < d.run;
      if ReadAgain(after, destinations[0]) && AdmitsDestination(f, destinations[0]) then [destinations[0]] + rest else rest
  }

  function First<T>(rows: seq<T>, limit: nat): (r: seq<T>)
    ensures r <= rows && |r| <= limit && (|r| < limit ==> r == rows)
  {
    if |rows| <= limit then rows else rows[..limit]
  }

  // Which queries of a page succeed; one that fails answers nothing.
  datatype Availability = Up(sources: bool, destinations: bool, exactDestinations: bool, exactSources: bool, exactMatches: bool)

  const ALL_UP := Up(true, true, true, true, true)

  method ExactDestinations(st: Stores, up: bool, sources: seq<Source>, known: seq<Destination>)
      returns (found: map<Identity, Option<Destination>>)
    requires WellFormed(st) && forall d :: d in known ==> d in st.destinations
    ensures forall id :: id in found && found[id].Some? ==> found[id].value in st.destinations && DestinationIdentity(found[id].value) == id
    ensures up ==> forall s :: s in sources ==>
      SourceIdentity(s) in found && found[SourceIdentity(s)] == Find(st.destinations, SourceIdentity(s))
  {
    found := map[];
    for i := 0 to |known|
      invariant forall id :: id in found ==> found[id].Some? && found[id].value in st.destinations && DestinationIdentity(found[id].value) == id
    {
      found := found[DestinationIdentity(known[i]) := Some(known[i])];
    }
    if !up { return; }
    for i := 0 to |sources|
      invariant forall id :: id in found && found[id].Some? ==> found[id].value in st.destinations && DestinationIdentity(found[id].value) == id
      invariant forall j :: 0 <= j < i ==> SourceIdentity(sources[j]) in found
      invariant forall id :: id in found ==> found[id] == Find(st.destinations, id)
    {
      var id := SourceIdentity(sources[i]);
      if id !in found {
        found := found[id := Find(st.destinations, id)];
      }
    }
  }

  method ExactSources(st: Stores, up: bool, destinations: seq<Destination>) returns (found: map<Identity, seq<Source>>)
    requires WellFormed(st)
    ensures forall id :: id in found ==> found[id] == First(Matching(st.sources, id), 2)
    ensures up ==> forall d :: d in destinations ==> DestinationIdentity(d) in found
  {
    found := map[];
    if !up { return; }
    for i := 0 to |destinations|
      invariant forall id :: id in found ==> found[id] == First(Matching(st.sources, id), 2)
      invariant forall j :: 0 <= j < i ==> DestinationIdentity(destinations[j]) in found
    {
      var id := DestinationIdentity(destinations[i]);
      found := found[id := First(Matching(st.sources, id), 2)];
    }
  }

  // --- One page ---

  // An entry stands at the key of the row it shows; the source's, if it shows both.
  predicate Shows(st: Stores, e: Entry) {
    && (e.item.source.Some? ==> e.item.source.value in st.sources && e.key == e.item.source.value.key)
    && (e.item.destination.Some? ==> e.item.destination.value in st.destinations)
    && (e.item.source.None? ==> e.item.destination.Some? && e.key == DestinationKey(e.item.destination.value))
  }

  predicate IsRowKey(st: Stores, k: Key) {
    || (exists s :: s in st.sources && s.key == k)
    || (exists d :: d in st.destinations && DestinationKey(d) == k)
  }

  // What the exact lookups have to answer for the rows of a page.
  predicate Complete(st: Stores, sources: seq<Source>, destinations: seq<Destination>,
                     sourceDestinations: map<Identity, Option<Destination>>,
                     destinationSources: map<Identity, seq<Source>>, sourceMatches: map<Identity, seq<Source>>)
  {
    && (forall d :: d in destinations ==> DestinationIdentity(d) in destinationSources)
    && (forall s :: s in sources ==>
          var id := SourceIdentity(s);
          && id in sourceDestinations && sourceDestinations[id] == Find(st.destinations, id)
          && (sourceDestinations[id].Some? ==> id in sourceMatches))
  }

  predicate Genuine(st: Stores, sourceDestinations: map<Identity, Option<Destination>>,
                    destinationSources: map<Identity, seq<Source>>, sourceMatches: map<Identity, seq<Source>>)
  {
    && (forall id :: id in sourceDestinations && sourceDestinations[id].Some? ==>
          sourceDestinations[id].value in st.destinations && DestinationIdentity(sourceDestinations[id].value) == id)
    && (forall id :: id in destinationSources ==> destinationSources[id] == First(Matching(st.sources, id), 2))
    && (forall id :: id in sourceMatches ==> sourceMatches[id] == First(Matching(st.sources, id), 2))
  }

  function Lookup<T>(found: map<Identity, seq<T>>, id: Identity): seq<T> {
    if id in found then found[id] else []
  }

  // The entry of a destination row of the page.
  function FromDestination(d: Destination, destinationSources: map<Identity, seq<Source>>): Entry {
    var matches := Lookup(destinationSources, DestinationIdentity(d));
    if |matches| == 1 then Entry(matches[0].key, Item(Some(matches[0]), Some(d), UNIQUE))
    else Entry(DestinationKey(d), Item(None, Some(d), if matches == [] then UNRESOLVED else AMBIGUOUS))
  }

  // The entry of a source row of the page.
  function FromSource(s: Source, sourceDestinations: map<Identity, Option<Destination>>, sourceMatches: map<Identity, seq<Source>>): Entry {
    var id := SourceIdentity(s);
    var d := if id in sourceDestinations then sourceDestinations[id] else None;
    var matches := if d.Some? then Lookup(sourceMatches, id) else [];
    Entry(s.key,
          if d.Some? && |matches| == 1 then Item(Some(s), d, UNIQUE)
          else Item(Some(s), None, if d.Some? then AMBIGUOUS else UNRESOLVED))
  }

  lemma OnlyDestination(st: Stores, d: Destination)
    requires WellFormed(st) && d in st.destinations
    ensures Find(st.destinations, DestinationIdentity(d)) == Some(d)
  {
  }

  // With complete lookups the entry of a source is its record.
  lemma SourceIsRecord(st: Stores, s: Source, sourceDestinations: map<Identity, Option<Destination>>, sourceMatches: map<Identity, seq<Source>>)
    requires s in st.sources && SourceIdentity(s) in sourceDestinations
    requires Genuine(st, sourceDestinations, map[], sourceMatches)
    requires var d := sourceDestinations[SourceIdentity(s)];
             d == Find(st.destinations, SourceIdentity(s)) && (d.Some? ==> SourceIdentity(s) in sourceMatches)
    ensures FromSource(s, sourceDestinations, sourceMatches) == SourceEntry(st, s)
  {
  }

  // With complete lookups the entry of a destination is its record, or that of its one source.
  lemma DestinationIsRecord(st: Stores, f: Filter, d: Destination, destinationSources: map<Identity, seq<Source>>)
    requires WellFormed(st) && d in st.destinations && AdmitsDestination(f, d)
    requires Genuine(st, map[], destinationSources, map[]) && DestinationIdentity(d) in destinationSources
    ensures var e := FromDestination(d, destinationSources);
            Belongs(st, f, e) && (!Joined(st, DestinationIdentity(d)) ==> e == DestinationEntry(st, d))
  {
    var id := DestinationIdentity(d);
    var e := FromDestination(d, destinationSources);
    OnlyDestination(st, d);
    if Joined(st, id) {
      var s := Matching(st.sources, id)[0];
      assert s in Matching(st.sources, id);
      assert e == SourceEntry(st, s) && AdmitsSource(f, s);
    } else {
      assert e == DestinationEntry(st, d);
    }
  }

  method MergeEntries(st: Stores, f: Filter, sources: seq<Source>, destinations: seq<Destination>,
                      sourceDestinations: map<Identity, Option<Destination>>,
                      destinationSources: map<Identity, seq<Source>>, sourceMatches: map<Identity, seq<Source>>)
      returns (entries: seq<Entry>)
    requires WellFormed(st) && Genuine(st, sourceDestinations, destinationSources, sourceMatches)
    requires forall s :: s in sources ==> s in st.sources && AdmitsSource(f, s)
    requires forall d :: d in destinations ==> d in st.destinations && AdmitsDestination(f, d)
    ensures forall e :: e in entries ==> Shows(st, e)
    ensures forall e :: e in entries <==>
              || (exists d :: d in destinations && e == FromDestination(d, destinationSources))
              || (exists s :: s in sources && e == FromSource(s, sourceDestinations, sourceMatches))
  {
    entries := [];
    for i := 0 to |destinations|
      invariant forall e :: e in entries ==> Shows(st, e)
      invariant forall e :: e in entries <==> exists j :: 0 <= j < i && e == FromDestination(destinations[j], destinationSources)
    {
      var d := destinations[i];
      var matches := Lookup(destinationSources, DestinationIdentity(d));
      var entry :=
        if |matches| == 1 then Entry(matches[0].key, Item(Some(matches[0]), Some(d), UNIQUE))
        else Entry(DestinationKey(d), Item(None, Some(d), if matches == [] then UNRESOLVED else AMBIGUOUS));
      assert |matches| == 1 ==> matches[0] in Matching(st.sources, DestinationIdentity(d));
      entries := entries + [entry];
    }
    ghost var before := entries;
    for i := 0 to |sources|
      invariant forall e :: e in entries ==> Shows(st, e)
      invariant forall e :: e in entries <==>
                  e in before || exists j :: 0 <= j < i && e == FromSource(sources[j], sourceDestinations, sourceMatches)
    {
      entries := entries + [FromSource(sources[i], sourceDestinations, sourceMatches)];
    }
  }

  // A later entry for the same key counts if it shows a destination.
  method UniqueEntries(entries: seq<Entry>, after: Key) returns (unique: map<Key, Item>)
    ensures forall k :: k in unique ==> Less(after, k) && Entry(k, unique[k]) in entries
    ensures forall e :: e in entries && Less(after, e.key) ==> e.key in unique
    ensures forall e :: e in entries && Less(after, e.key) && e.item.destination.Some? ==> unique[e.key].destination.Some?
  {
    unique := map[];
    for i := 0 to |entries|
      invariant forall k :: k in unique ==> Less(after, k) && Entry(k, unique[k]) in entries
      invariant forall j :: 0 <= j < i && Less(after, entries[j].key) ==>
                  entries[j].key in unique && (entries[j].item.destination.Some? ==> unique[entries[j].key].destination.Some?)
    {
      var e := entries[i];
      if Less(after, e.key) && (e.key !in unique || e.item.destination.Some?) {
        unique := unique[e.key := e.item];
      }
    }
  }

  predicate Sorted(entries: seq<Entry>) {
    forall i, j :: 0 <= i < j < |entries| ==> Less(entries[i].key, entries[j].key)
  }

  method SortedItems(unique: map<Key, Item>) returns (entries: seq<Entry>)
    ensures Sorted(entries)
    ensures forall e :: e in entries <==> e.key in unique && unique[e.key] == e.item
  {
    entries := [];
    var rest := unique;
    while rest != map[]
      invariant rest.Keys <= unique.Keys && (forall k :: k in rest ==> rest[k] == unique[k])
      invariant Sorted(entries)
      invariant forall e :: e in entries <==> e.key in unique && e.key !in rest && unique[e.key] == e.item
      decreases |rest|
    {
      var k :| k in rest;
      entries := Insert(entries, Entry(k, rest[k]));
      ghost var smaller := rest - {k};
      assert k !in smaller && |smaller| < |rest| by { assert smaller.Keys == rest.Keys - {k}; }
      rest := rest - {k};
    }
  }

  function Insert(entries: seq<Entry>, e: Entry): (r: seq<Entry>)
    requires Sorted(entries) && forall x :: x in entries ==> x.key != e.key
    ensures Sorted(r) && (forall x :: x in r <==> x in entries || x == e)
  {
    if entries == [] then [e]
    else if Less(e.key, entries[0].key) then [e] + entries
    else
      var rest := Insert(entries[1..], e);
      assert forall x :: x in rest ==> Less(entries[0].key, x.key);
      [entries[0]] + rest
  }

  // The first limit + 1 rows on both sides, and how far entries can be trusted to be complete: up
  // to the last row read of every side that may have more.
  function Frontier(limit: nat, sources: seq<Source>, destinations: seq<Destination>): (r: Option<Key>)
  {
    var s := if |sources| == limit + 1 then Some(sources[limit].key) else None;
    var d := if |destinations| == limit + 1 then Some(DestinationKey(destinations[limit])) else None;
    if s.None? || (d.Some? && Less(d.value, s.value)) then d else s
  }

  predicate Within(k: Key, bound: Option<Key>) {
    bound.Some? ==> AtMost(k, bound.value)
  }

  // Up to the frontier, a page that could read everything has all records after the cursor.
  lemma PageIsComplete(st: Stores, f: Filter, after: Key, limit: nat, sources: seq<Source>, destinations: seq<Destination>, e: Entry)
    requires WellFormed(st) && Belongs(st, f, e) && Less(after, e.key)
    requires sources == First(SourcesAfter(st.sources, after, f), limit + 1)
    requires destinations == First(DestinationsAfter(st.destinations, after, f), limit + 1)
    requires Within(e.key, Frontier(limit, sources, destinations))
    ensures || (exists s :: s in sources && e == SourceEntry(st, s))
            || (exists d :: d in destinations && !Joined(st, DestinationIdentity(d)) && e == DestinationEntry(st, d))
  {
    if s :| s in st.sources && AdmitsSource(f, s) && e == SourceEntry(st, s) {
      var all := SourcesAfter(st.sources, after, f);
      assert s in all;
      assert s in sources;
    } else {
      var d :| d in st.destinations && AdmitsDestination(f, d) && !Joined(st, DestinationIdentity(d)) && e == DestinationEntry(st, d);
      var all := DestinationsAfter(st.destinations, after, f);
      assert d in all;
      assert d in destinations;
    }
  }

  // A page that may have more ends after its cursor, so the walk goes on.
  lemma FrontierAdvances(st: Stores, f: Filter, after: Key, limit: nat, sources: seq<Source>, destinations: seq<Destination>)
    requires WellFormed(st) && 1 <= limit
    requires sources == [] || sources == First(SourcesAfter(st.sources, after, f), limit + 1)
    requires destinations == [] || destinations == First(DestinationsAfter(st.destinations, after, f), limit + 1)
    requires Frontier(limit, sources, destinations).Some?
    ensures Less(after, Frontier(limit, sources, destinations).value)
    ensures IsRowKey(st, Frontier(limit, sources, destinations).value)
  {
    if |sources| == limit + 1 {
      assert sources[limit] in SourcesAfter(st.sources, after, f);
    }
    if |destinations| == limit + 1 {
      assert destinations[0] in DestinationsAfter(st.destinations, after, f);
      assert destinations[limit] in DestinationsAfter(st.destinations, after, f);
      assert destinations[0].run < destinations[limit].run;
    }
  }

  function UpTo(entries: seq<Entry>, bound: Key): (r: seq<Entry>)
    requires Sorted(entries)
    ensures Sorted(r) && forall e :: e in r <==> e in entries && AtMost(e.key, bound)
  {
    if entries == [] then []
    else
      var rest := UpTo(entries[1..], bound);
      if AtMost(entries[0].key, bound) then [entries[0]] + rest else rest
  }

  // All entries of a page, before it is cut.
  method PageEntries(st: Stores, after: Key, f: Filter, up: Availability, sources: seq<Source>, destinations: seq<Destination>)
      returns (entries: seq<Entry>)
    requires WellFormed(st)
    requires forall s :: s in sources ==> s in st.sources && AdmitsSource(f, s)
    requires forall d :: d in destinations ==> d in st.destinations && AdmitsDestination(f, d)
    ensures Sorted(entries) && forall e :: e in entries ==> Less(after, e.key) && Shows(st, e)
    ensures up == ALL_UP ==>
      && (forall e :: e in entries ==> Belongs(st, f, e))
      && (forall s :: s in sources && Less(after, s.key) ==> SourceEntry(st, s) in entries)
      && (forall d :: d in destinations && !Joined(st, DestinationIdentity(d)) && Less(after, DestinationKey(d)) ==>
            DestinationEntry(st, d) in entries)
  {
    var sourceDestinations := ExactDestinations(st, up.exactDestinations, sources, destinations);
    var destinationSources := ExactSources(st, up.exactSources, destinations);
    var matched := Present(st, sourceDestinations);
    var sourceMatches := ExactSources(st, up.exactMatches, matched);
    var merged := MergeEntries(st, f, sources, destinations, sourceDestinations, destinationSources, sourceMatches);
    var unique := UniqueEntries(merged, after);
    entries := SortedItems(unique);
    if up == ALL_UP {
      forall e | e in merged
        ensures Belongs(st, f, e)
      {
        MergedBelongs(st, f, sources, destinations, sourceDestinations, destinationSources, sourceMatches, e);
      }
      forall e | e in merged && Less(after, e.key)
        ensures e in entries
      {
        OneRecordPerKey(st, f, e, Entry(e.key, unique[e.key]));
      }
      forall s | s in sources && Less(after, s.key)
        ensures SourceEntry(st, s) in entries
      {
        SourceIsRecord(st, s, sourceDestinations, sourceMatches);
      }
      forall d | d in destinations && !Joined(st, DestinationIdentity(d)) && Less(after, DestinationKey(d))
        ensures DestinationEntry(st, d) in entries
      {
        DestinationIsRecord(st, f, d, destinationSources);
      }
    }
  }

  lemma MergedBelongs(st: Stores, f: Filter, sources: seq<Source>, destinations: seq<Destination>,
                      sourceDestinations: map<Identity, Option<Destination>>,
                      destinationSources: map<Identity, seq<Source>>, sourceMatches: map<Identity, seq<Source>>, e: Entry)
    requires WellFormed(st) && Genuine(st, sourceDestinations, destinationSources, sourceMatches)
    requires Complete(st, sources, destinations, sourceDestinations, destinationSources, sourceMatches)
    requires forall s :: s in sources ==> s in st.sources && AdmitsSource(f, s)
    requires forall d :: d in destinations ==> d in st.destinations && AdmitsDestination(f, d)
    requires || (exists d :: d in destinations && e == FromDestination(d, destinationSources))
             || (exists s :: s in sources && e == FromSource(s, sourceDestinations, sourceMatches))
    ensures Belongs(st, f, e)
  {
    if d :| d in destinations && e == FromDestination(d, destinationSources) {
      DestinationIsRecord(st, f, d, destinationSources);
    } else {
      var s :| s in sources && e == FromSource(s, sourceDestinations, sourceMatches);
      SourceIsRecord(st, s, sourceDestinations, sourceMatches);
    }
  }

  // The destinations that were found.
  method Present(st: Stores, found: map<Identity, Option<Destination>>) returns (present: seq<Destination>)
    requires forall id :: id in found && found[id].Some? ==> DestinationIdentity(found[id].value) == id
    ensures forall id :: id in found && found[id].Some? ==> found[id].value in present
  {
    present := [];
    var rest := found;
    while rest != map[]
      invariant rest.Keys <= found.Keys && (forall id :: id in rest ==> rest[id] == found[id])
      invariant forall id :: id in found && id !in rest && found[id].Some? ==> found[id].value in present
      decreases |rest|
    {
      var id :| id in rest;
      if rest[id].Some? {
        present := present + [rest[id].value];
      }
      assert |rest - {id}| < |rest| by { assert (rest - {id}).Keys == rest.Keys - {id}; }
      rest := rest - {id};
    }
  }

  // A page after a cursor. Whatever fails, the page goes on after the cursor and in order; if
  // nothing fails, it has exactly the records up to the next cursor.
  method ReadRuns(st: Stores, after: Key, limit: nat, f: Filter, up: Availability) returns (items: seq<Entry>, next: Option<Key>)
    requires WellFormed(st) && 1 <= limit
    ensures Sorted(items) && |items| <= limit && forall e :: e in items ==> Less(after, e.key) && Shows(st, e)
    ensures next.Some? ==> Less(after, next.value) && IsRowKey(st, next.value) && forall e :: e in items ==> AtMost(e.key, next.value)
    ensures up == ALL_UP ==> forall e :: e in items <==> Belongs(st, f, e) && Less(after, e.key) && Within(e.key, next)
  {
    var sources := if up.sources then First(SourcesAfter(st.sources, after, f), limit + 1) else [];
    var destinations := if up.destinations && f.node.None? then First(DestinationsAfter(st.destinations, after, f), limit + 1) else [];
    var entries := PageEntries(st, after, f, up, sources, destinations);
    var frontier := Frontier(limit, sources, destinations);
    if frontier.Some? {
      FrontierAdvances(st, f, after, limit, sources, destinations);
      entries := UpTo(entries, frontier.value);
    }
    items, next := Cut(entries, after, limit, frontier);
    if next.Some? {
      CursorIsRowKey(st, entries, frontier, next.value);
    }
    if up == ALL_UP {
      NodeExcludesDestinations(st, after, f);
      forall e
        ensures e in items <==> Belongs(st, f, e) && Less(after, e.key) && Within(e.key, next)
      {
        if Belongs(st, f, e) && Less(after, e.key) && Within(e.key, next) {
          PageIsComplete(st, f, after, limit, sources, destinations, e);
        }
      }
    }
  }

  lemma NodeExcludesDestinations(st: Stores, after: Key, f: Filter)
    requires WellFormed(st)
    ensures f.node.Some? ==> DestinationsAfter(st.destinations, after, f) == []
  {
    var r := DestinationsAfter(st.destinations, after, f);
    assert r != [] ==> r[0] in r;
  }

  lemma CursorIsRowKey(st: Stores, entries: seq<Entry>, frontier: Option<Key>, next: Key)
    requires forall e :: e in entries ==> Shows(st, e)
    requires frontier.Some? ==> IsRowKey(st, frontier.value)
    requires Some(next) == frontier || exists e :: e in entries && e.key == next
    ensures IsRowKey(st, next)
  {
  }

  // The first limit entries, and where the next page starts if there may be more.
  method Cut(entries: seq<Entry>, after: Key, limit: nat, frontier: Option<Key>) returns (items: seq<Entry>, next: Option<Key>)
    requires Sorted(entries) && 1 <= limit
    requires forall e :: e in entries ==> Less(after, e.key) && Within(e.key, frontier)
    requires frontier.Some? ==> Less(after, frontier.value)
    ensures items == First(entries, limit)
    ensures next.Some? <==> |entries| > limit || frontier.Some?
    ensures next.Some? ==> Less(after, next.value) && (next == frontier || exists e :: e in entries && e.key == next.value)
    ensures forall e :: e in items <==> e in entries && Within(e.key, next)
    ensures forall k :: Within(k, next) ==> Within(k, frontier)
  {
    var boundary :=
      if |entries| > limit then entries[limit - 1].key
      else if frontier.Some? then frontier.value
      else if entries != [] then entries[|entries| - 1].key
      else after;
    var more := |entries| > limit || frontier.Some?;
    next := if more && Less(after, boundary) then Some(boundary) else None;
    items := First(entries, limit);
  }

  // --- The walk ---

  ghost function KeysAfter(st: Stores, after: Key): set<Key> {
    (set s | s in st.sources && Less(after, s.key) :: s.key)
    + (set d | d in st.destinations && Less(after, DestinationKey(d)) :: DestinationKey(d))
  }

  lemma KeysDecrease(st: Stores, after: Key, next: Key)
    requires IsRowKey(st, next) && Less(after, next)
    ensures |KeysAfter(st, next)| < |KeysAfter(st, after)|
  {
    assert next in KeysAfter(st, after) && next !in KeysAfter(st, next);
    assert KeysAfter(st, next) < KeysAfter(st, after);
    Smaller(KeysAfter(st, next), KeysAfter(st, after));
  }

  // A page is appended to what was shown up to its cursor.
  lemma PageFollows(st: Stores, f: Filter, shown: seq<Entry>, items: seq<Entry>, after: Key, next: Option<Key>)
    requires forall e :: e in shown <==> Belongs(st, f, e) && AtMost(e.key, after)
    requires forall e :: e in items <==> Belongs(st, f, e) && Less(after, e.key) && Within(e.key, next)
    requires next.Some? ==> Less(after, next.value)
    ensures forall e :: e in shown + items <==> Belongs(st, f, e) && Within(e.key, next)
  {
  }

  lemma PageSorted(shown: seq<Entry>, items: seq<Entry>, after: Key, next: Option<Key>)
    requires Sorted(shown) && forall e :: e in shown ==> AtMost(e.key, after)
    requires Sorted(items) && forall e :: e in items ==> Less(after, e.key) && Within(e.key, next)
    requires next.Some? ==> Less(after, next.value)
    ensures Sorted(shown + items) && forall e :: e in shown + items ==> Within(e.key, next)
  {
  }

  lemma Smaller<T>(a: set<T>, b: set<T>)
    requires a < b
    ensures |a| < |b|
  {
    assert b == a + (b - a);
  }

  // Following the cursors from the empty one always ends, and shows every key at most once and in
  // order. If no query fails, it shows exactly the records of the unpaged merge, whatever the limit.
  method Walk(st: Stores, limit: nat, f: Filter, outages: seq<Availability>) returns (shown: seq<Entry>)
    requires WellFormed(st) && 1 <= limit
    ensures Sorted(shown) && forall e :: e in shown ==> Shows(st, e)
    ensures (forall up :: up in outages ==> up == ALL_UP) ==> forall e :: e in shown <==> Belongs(st, f, e)
  {
    var page := 0;
    var after := Key(EMPTY, EMPTY, EMPTY, EMPTY);
    var more := true;
    shown := [];
    while more
      invariant Sorted(shown) && (forall e :: e in shown ==> Shows(st, e))
      invariant forall e :: e in shown ==> Within(e.key, if more then Some(after) else None)
      invariant (forall up :: up in outages ==> up == ALL_UP) ==>
                  forall e :: e in shown <==> Belongs(st, f, e) && Within(e.key, if more then Some(after) else None)
      decreases if more then 1 + |KeysAfter(st, after)| else 0
    {
      var up := if page < |outages| then outages[page] else ALL_UP;
      assert up in outages || up == ALL_UP;
      var items, next := ReadRuns(st, after, limit, f, up);
      PageSorted(shown, items, after, next);
      if forall up :: up in outages ==> up == ALL_UP {
        PageFollows(st, f, shown, items, after, next);
      }
      shown := shown + items;
      more := next.Some?;
      if more {
        KeysDecrease(st, after, next.value);
        after := next.value;
      }
      page := page + 1;
    }
  }
}
