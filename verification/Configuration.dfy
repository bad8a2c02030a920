/** Loading the configuration: the nested loop that builds the service index and the
    actor table with its uniqueness checks (src/coro_actor_config.cpp:20-99). The file
    is an already parsed list. */
module Configuration {
  import opened Protocol

  /** One item of `actor_config`: a required key is missing or ill-typed, or a name
      and what its service file lists, if that file can be read: the services up to
      the first item that is not a text, and whether that is the whole list. */
  datatype Entry = Malformed | Actor(name: Text, services: Option<seq<Text>>, whole: bool)

  ghost predicate Readable(e: Entry) {
    e.Actor? && e.services.Some? && e.whole
  }

  function Listed(e: Entry): seq<Text> {
    if e.Actor? && e.services.Some? then e.services.value else []
  }

  /** All services of all entries, in file order. */
  ghost function Listing(entries: seq<Entry>): seq<Text> {
    if entries == [] then [] else Listing(entries[..|entries| - 1]) + Listed(entries[|entries| - 1])
  }

  ghost function Names(entries: seq<Entry>): seq<Text> {
    if entries == [] then [] else
      Names(entries[..|entries| - 1]) + (var e := entries[|entries| - 1]; if e.Actor? then [e.name] else [])
  }

  ghost predicate Distinct(xs: seq<Text>) {
    forall i, j :: 0 <= i < j < |xs| ==> xs[i] != xs[j]
  }

  /** What `load` accepts: readable entries, no name and no service twice. */
  ghost predicate Acceptable(entries: seq<Entry>) {
    (forall i :: 0 <= i < |entries| ==> Readable(entries[i])) && Distinct(Names(entries)) && Distinct(Listing(entries))
  }

  function Items(xs: seq<Text>): set<Text> {
    set x | x in xs
  }

  /** The index that the entries describe: each service under the name of its entry. */
  ghost function Owners(entries: seq<Entry>): map<Text, Text> {
    if entries == [] then map[] else
      Owned(Owners(entries[..|entries| - 1]), entries[|entries| - 1])
  }

  ghost function Owned(owner: map<Text, Text>, e: Entry): map<Text, Text> {
    match e
    case Malformed => owner
    case Actor(name, _, _) => owner + map s | s in Listed(e) :: name
  }

  ghost function Tables(entries: seq<Entry>): map<Text, set<Text>> {
    if entries == [] then map[] else
      match entries[|entries| - 1]
      case Malformed => Tables(entries[..|entries| - 1])
      case Actor(name, _, _) => Tables(entries[..|entries| - 1])[name := Items(Listed(entries[|entries| - 1]))]
  }

  // ----------------------------------------------------- what the entries mean

  lemma DistinctSnoc(xs: seq<Text>, x: Text)
    ensures Distinct(xs + [x]) <==> Distinct(xs) && x !in xs
  {
    var more := xs + [x];
    if Distinct(more) {
      forall i | 0 <= i < |xs| ensures xs[i] != x {
        assert more[i] != more[|xs|];
      }
      forall i, j | 0 <= i < j < |xs| ensures xs[i] != xs[j] {
        assert more[i] != more[j];
      }
    }
  }

  lemma {:induction false} DistinctPrefix(xs: seq<Text>, ys: seq<Text>)
    requires Distinct(xs + ys)
    ensures Distinct(xs) && (forall s :: s in xs ==> s !in ys)
  {
    forall i, j | 0 <= i < j < |xs| ensures xs[i] != xs[j] {
      assert (xs + ys)[i] != (xs + ys)[j];
    }
    forall i, j | 0 <= i < |xs| && 0 <= j < |ys| ensures xs[i] != ys[j] {
      assert (xs + ys)[i] != (xs + ys)[|xs| + j];
    }
  }

  lemma {:induction false} TableNames(entries: seq<Entry>, n: Text)
    ensures n in Tables(entries) <==> n in Names(entries)
    ensures forall s :: n in Tables(entries) && s in Tables(entries)[n] ==> s in Listing(entries)
  {
    if entries != [] {
      TableNames(entries[..|entries| - 1], n);
    }
  }

  lemma {:induction false} OwnerNames(entries: seq<Entry>, s: Text)
    ensures s in Owners(entries) ==> s in Listing(entries)
  {
    if entries != [] {
      OwnerNames(entries[..|entries| - 1], s);
    }
  }

  /** The two halves of what an accepted file describes agree. */
  lemma {:induction false} AcceptedAgrees(entries: seq<Entry>)
    requires Acceptable(entries)
    ensures IndexAgrees(Config(Owners(entries), Tables(entries)))
  {
    if entries != [] {
      var fewer, e := entries[..|entries| - 1], entries[|entries| - 1];
      assert Readable(e);
      DistinctPrefix(Names(fewer), [e.name]);
      DistinctPrefix(Listing(fewer), Listed(e));
      AcceptedAgrees(fewer);
      forall s, n
        ensures s in Owners(entries) && Owners(entries)[s] == n
                <==> Offers(Config(Owners(entries), Tables(entries)), n, s) {
        assert s in Owners(fewer) && Owners(fewer)[s] == n <==> Offers(Config(Owners(fewer), Tables(fewer)), n, s);
        OwnerNames(fewer, s);
        TableNames(fewer, n);
      }
    }
  }

  /** In an accepted file every listed service has an owner. */
  lemma {:induction false} AcceptedCovers(entries: seq<Entry>)
    requires Acceptable(entries)
    ensures Owners(entries).Keys == Items(Listing(entries)) && Tables(entries).Keys == Items(Names(entries))
  {
    if entries != [] {
      var fewer, e := entries[..|entries| - 1], entries[|entries| - 1];
      assert Readable(e);
      DistinctPrefix(Names(fewer), [e.name]);
      DistinctPrefix(Listing(fewer), Listed(e));
      AcceptedCovers(fewer);
    }
  }

  /** Every service is owned by the entry that lists it, and every name has the services
      of its entry. */
  lemma {:induction false} AcceptedIs(entries: seq<Entry>, i: nat)
    requires Acceptable(entries) && i < |entries|
    ensures entries[i].Actor? && entries[i].services.Some?
    ensures entries[i].name in Tables(entries)
    ensures forall s :: s in Tables(entries)[entries[i].name] <==> s in entries[i].services.value
    ensures forall s :: s in entries[i].services.value ==> s in Owners(entries) && Owners(entries)[s] == entries[i].name
  {
    var last := |entries| - 1;
    var fewer, e := entries[..last], entries[last];
    assert Readable(e);
    DistinctPrefix(Names(fewer), [e.name]);
    DistinctPrefix(Listing(fewer), Listed(e));
    if i < last {
      AcceptedIs(fewer, i);
      TableNames(fewer, entries[i].name);
      forall s | s in entries[i].services.value ensures s in Owners(fewer) && s !in Listed(e) {
        OwnerNames(fewer, s);
      }
    }
  }

  // ------------------------------------------------ which files are acceptable

  lemma {:induction false} ListedOnce(entries: seq<Entry>, s: Text)
    ensures s in Listing(entries) <==> exists i :: 0 <= i < |entries| && s in Listed(entries[i])
  {
    if entries != [] {
      var last := |entries| - 1;
      ListedOnce(entries[..last], s);
      hide Listed;
      assert forall i :: 0 <= i < last ==> entries[..last][i] == entries[i];
    }
  }

  lemma {:induction false} NamedOnce(entries: seq<Entry>, s: Text)
    ensures s in Names(entries) <==> exists i :: 0 <= i < |entries| && entries[i].Actor? && entries[i].name == s
  {
    if entries != [] {
      var last := |entries| - 1;
      NamedOnce(entries[..last], s);
      assert forall i :: 0 <= i < last ==> entries[..last][i] == entries[i];
    }
  }

  lemma DistinctTwo(xs: seq<Text>, ys: seq<Text>)
    ensures Distinct(xs + ys) <==> Distinct(xs) && Distinct(ys) && forall x :: x in xs ==> x !in ys
  {
    if Distinct(xs + ys) {
      DistinctPrefix(xs, ys);
      forall i, j | 0 <= i < j < |ys| ensures ys[i] != ys[j] {
        assert (xs + ys)[|xs| + i] != (xs + ys)[|xs| + j];
      }
    }
    if Distinct(xs) && Distinct(ys) && forall x :: x in xs ==> x !in ys {
      forall i, j | 0 <= i < j < |xs + ys| ensures (xs + ys)[i] != (xs + ys)[j] {
        if i < |xs| <= j {
          assert xs[i] in xs && ys[j - |xs|] in ys;
        }
      }
    }
  }

  /** The file repeats nothing: no name of two entries, no service of two entries or twice
      in one. */
  ghost predicate Repeatless(entries: seq<Entry>) {
    && (forall i, j :: 0 <= i < j < |entries| && entries[i].Actor? && entries[j].Actor? ==>
          entries[i].name != entries[j].name)
    && (forall i, j, s :: 0 <= i < j < |entries| && s in Listed(entries[i]) ==> s !in Listed(entries[j]))
    && (forall i :: 0 <= i < |entries| ==> Distinct(Listed(entries[i])))
  }

  /** The last entry repeats nothing of the others or of itself. */
  ghost predicate LastAlone(entries: seq<Entry>)
    requires entries != []
  {
    var last := |entries| - 1;
    var e := entries[last];
    && (e.Actor? ==> forall i :: 0 <= i < last && entries[i].Actor? ==> entries[i].name != e.name)
    && (forall i, s :: 0 <= i < last && s in Listed(entries[i]) ==> s !in Listed(e))
    && Distinct(Listed(e))
  }

  lemma RepeatlessNext(entries: seq<Entry>)
    requires entries != []
    ensures Repeatless(entries) <==> Repeatless(entries[..|entries| - 1]) && LastAlone(entries)
  {
    var last := |entries| - 1;
    assert forall i :: 0 <= i < last ==> entries[..last][i] == entries[i];
    hide Listed, Distinct;
  }

  lemma ListingNext(entries: seq<Entry>)
    requires entries != []
    ensures var fewer := entries[..|entries| - 1];
            Distinct(Names(entries)) && Distinct(Listing(entries))
            <==> Distinct(Names(fewer)) && Distinct(Listing(fewer)) && LastAlone(entries)
  {
    var last := |entries| - 1;
    var fewer, e := entries[..last], entries[last];
    assert forall i :: 0 <= i < last ==> fewer[i] == entries[i];
    var name := if e.Actor? then [e.name] else [];
    assert Distinct(name) && Names(entries) == Names(fewer) + name && Listing(entries) == Listing(fewer) + Listed(e);
    DistinctTwo(Names(fewer), name);
    DistinctTwo(Listing(fewer), Listed(e));
    hide Names, Listing, Distinct, Listed;
    forall i, s | 0 <= i < last && s in Listed(entries[i]) ensures s in Listing(fewer) {
      ListedOnce(fewer, s);
      assert s in Listed(fewer[i]);
    }
    forall i | 0 <= i < last && entries[i].Actor? ensures entries[i].name in Names(fewer) {
      NamedOnce(fewer, entries[i].name);
      assert fewer[i].Actor?;
    }
    forall s | s in Listing(fewer) ensures exists i :: 0 <= i < last && s in Listed(entries[i]) {
      ListedOnce(fewer, s);
      var i :| 0 <= i < |fewer| && s in Listed(fewer[i]);
      assert s in Listed(entries[i]);
    }
    forall s | s in Names(fewer) ensures exists i :: 0 <= i < last && entries[i].Actor? && entries[i].name == s {
      NamedOnce(fewer, s);
    }
  }

  lemma {:induction false} RepeatlessIs(entries: seq<Entry>)
    ensures Distinct(Names(entries)) && Distinct(Listing(entries)) <==> Repeatless(entries)
  {
    if entries != [] {
      hide Names, Listing, Distinct, Repeatless, LastAlone;
      RepeatlessIs(entries[..|entries| - 1]);
      RepeatlessNext(entries);
      ListingNext(entries);
    }
  }

  /** A file is accepted if and only if every entry is readable to the end of its services
      and nothing is repeated. */
  lemma AcceptableIs(entries: seq<Entry>)
    ensures Acceptable(entries) <==>
              (forall i :: 0 <= i < |entries| ==>
                 entries[i].Actor? && entries[i].services.Some? && entries[i].whole)
              && Repeatless(entries)
  {
    RepeatlessIs(entries);
    hide Repeatless, Names, Listing, Distinct;
  }

  // --------------------------------------------------------------- the loader

  /** The index after the first `j` services of `e`. */
  ghost function Partly(owner: map<Text, Text>, e: Entry, j: nat): map<Text, Text>
    requires j <= |Listed(e)|
  {
    match e
    case Malformed => owner
    case Actor(name, _, _) => owner + map s | s in Listed(e)[..j] :: name
  }

  lemma PartlyNext(owner: map<Text, Text>, e: Entry, j: nat)
    requires e.Actor? && j < |Listed(e)|
    ensures Partly(owner, e, j + 1) == Partly(owner, e, j)[Listed(e)[j] := e.name]
    ensures Items(Listed(e)[..j + 1]) == Items(Listed(e)[..j]) + {Listed(e)[j]}
  {
    assert Listed(e)[..j + 1] == Listed(e)[..j] + [Listed(e)[j]];
  }

  lemma PartlyEnds(owner: map<Text, Text>, e: Entry)
    requires e.Actor?
    ensures Partly(owner, e, 0) == owner && Partly(owner, e, |Listed(e)|) == Owned(owner, e)
    ensures Items(Listed(e)[..0]) == {} && Items(Listed(e)[..|Listed(e)|]) == Items(Listed(e))
  {
    assert Listed(e)[..|Listed(e)|] == Listed(e);
  }

  lemma AcceptableOne(entries: seq<Entry>, i: nat)
    requires i < |entries|
    ensures Names(entries[..i + 1]) == Names(entries[..i]) + if entries[i].Actor? then [entries[i].name] else []
    ensures Listing(entries[..i + 1]) == Listing(entries[..i]) + Listed(entries[i])
    ensures Owners(entries[..i + 1]) == Owned(Owners(entries[..i]), entries[i])
    ensures Tables(entries[..i + 1]) ==
            if entries[i].Actor? then Tables(entries[..i])[entries[i].name := Items(Listed(entries[i]))]
            else Tables(entries[..i])
    ensures Acceptable(entries[..i + 1]) ==> Acceptable(entries[..i]) && Readable(entries[i])
    ensures (&& Acceptable(entries[..i]) && Readable(entries[i]) && entries[i].name !in Names(entries[..i])
             && Distinct(Listing(entries[..i]) + Listed(entries[i]))) ==> Acceptable(entries[..i + 1])
  {
    var fewer, more := entries[..i], entries[..i + 1];
    assert more[..i] == fewer && more[i] == entries[i];
    if Acceptable(more) {
      assert Readable(more[i]);
      forall k | 0 <= k < i ensures Readable(fewer[k]) {
        assert Readable(more[k]);
      }
      DistinctPrefix(Names(fewer), [entries[i].name]);
      DistinctPrefix(Listing(fewer), Listed(entries[i]));
    }
    if entries[i].Actor? {
      DistinctSnoc(Names(fewer), entries[i].name);
    }
  }

  lemma {:induction false} AcceptablePrefix(entries: seq<Entry>, i: nat)
    requires i <= |entries| && Acceptable(entries)
    ensures Acceptable(entries[..i])
    decreases |entries| - i
  {
    if i == |entries| {
      assert entries[..i] == entries;
    } else {
      AcceptablePrefix(entries, i + 1);
      AcceptableOne(entries, i);
    }
  }

  /** A service seen before makes the entry unacceptable. */
  lemma Repeated(entries: seq<Entry>, i: nat, j: nat)
    requires i < |entries| && j < |Listed(entries[i])|
    requires Listed(entries[i])[j] in Listing(entries[..i]) + Listed(entries[i])[..j]
    ensures !Acceptable(entries[..i + 1])
  {
    AcceptableOne(entries, i);
    var listed := Listed(entries[i]);
    var seen := Listing(entries[..i]) + listed[..j];
    assert Listing(entries[..i]) + listed == seen + listed[j..];
    assert listed[j..][0] == listed[j] && listed[j] in listed[j..];
    if Acceptable(entries[..i + 1]) {
      DistinctPrefix(seen, listed[j..]);
    }
  }

  /** How many services of entry `i` are entered: none if it has no good name or no list;
      otherwise those before the first that has been seen, or all. */
  ghost predicate StopsAt(entries: seq<Entry>, i: nat, j: nat)
    requires i < |entries|
  {
    var e, seen := entries[i], Listing(entries[..i]);
    if !e.Actor? || e.services.None? || e.name in Names(entries[..i]) then j == 0
    else
      && j <= |Listed(e)|
      && (forall k :: 0 <= k < j ==> Listed(e)[k] !in seen + Listed(e)[..k])
      && (j < |Listed(e)| ==> Listed(e)[j] in seen + Listed(e)[..j])
  }

  /** Where `load` stops on a file it refuses: entry `i` is the first that cannot be
      accepted, and the maps hold what is before it and the first `j` of its services. */
  ghost predicate Refused(entries: seq<Entry>, owner: map<Text, Text>, tables: map<Text, set<Text>>, i: nat, j: nat) {
    && i < |entries| && j <= |Listed(entries[i])|
    && Acceptable(entries[..i]) && !Acceptable(entries[..i + 1]) && StopsAt(entries, i, j)
    && tables == Tables(entries[..i]) && owner == Partly(Owners(entries[..i]), entries[i], j)
  }

  lemma RefusedFile(entries: seq<Entry>, owner: map<Text, Text>, tables: map<Text, set<Text>>, i: nat, j: nat)
    requires Refused(entries, owner, tables, i, j)
    ensures !Acceptable(entries)
  {
    hide Acceptable, Tables, Partly, Owners, StopsAt;
    if Acceptable(entries) {
      AcceptablePrefix(entries, i + 1);
    }
  }

  lemma NameRepeated(entries: seq<Entry>, i: nat)
    requires i < |entries| && entries[i].Actor? && entries[i].name in Names(entries[..i])
    ensures !Acceptable(entries[..i + 1])
  {
    AcceptableOne(entries, i);
    DistinctSnoc(Names(entries[..i]), entries[i].name);
  }

  lemma NothingLoaded(entries: seq<Entry>)
    ensures Acceptable(entries[..0]) && Items(Names(entries[..0])) == {} && Items(Listing(entries[..0])) == {}
    ensures Owners(entries[..0]) == map[] && Tables(entries[..0]) == map[]
  {
  }

  lemma PartlyNone(owner: map<Text, Text>, e: Entry)
    ensures Partly(owner, e, 0) == owner
  {
    if e.Actor? {
      PartlyEnds(owner, e);
    }
  }

  lemma ItemsSnoc(xs: seq<Text>, x: Text)
    ensures Items(xs + [x]) == Items(xs) + {x} && (x in Items(xs) <==> x in xs)
  {
  }

  lemma ServicesBegin(before: seq<Text>, listed: seq<Text>)
    ensures before + listed[..0] == before && listed[..|listed|] == listed
  {
  }

  /** One more service of an entry. */
  lemma ServiceNext(before: seq<Text>, listed: seq<Text>, k: nat)
    requires k < |listed|
    ensures var one, two := before + listed[..k], before + listed[..k + 1];
            && Items(two) == Items(one) + {listed[k]} && (listed[k] in Items(one) <==> listed[k] in one)
            && (Distinct(two) <==> Distinct(one) && listed[k] !in one)
  {
    var one := before + listed[..k];
    assert before + listed[..k + 1] == one + [listed[k]];
    hide *;
    ItemsSnoc(one, listed[k]);
    DistinctSnoc(one, listed[k]);
  }

  lemma AcceptableListing(entries: seq<Entry>)
    requires Acceptable(entries)
    ensures Distinct(Listing(entries))
  {
  }

  class Loader {
    var serviceMap: map<Text, Text>
    var actorMap: map<Text, set<Text>>

    constructor ()
      ensures serviceMap == map[] && actorMap == map[]
    {
      serviceMap, actorMap := map[], map[];
    }

    /** The inner loop, over the services of one entry: it stops at the first service
        that has been seen before. */
    method LoadServices(e: Entry, seen: set<Text>, ghost before: seq<Text>, ghost owner: map<Text, Text>)
      returns (ok: bool, checkServices: set<Text>, services: set<Text>, ghost j: nat)
      requires e.Actor? && e.services.Some? && seen == Items(before) && Distinct(before) && serviceMap == owner
      modifies this`serviceMap
      ensures j <= |Listed(e)| && serviceMap == Partly(owner, e, j)
      ensures ok ==> j == |Listed(e)| && Distinct(before + Listed(e)) && checkServices == Items(before + Listed(e))
      ensures ok ==> services == Items(Listed(e)) && serviceMap == Owned(owner, e)
      ensures !ok ==> j < |Listed(e)| && Listed(e)[j] in before + Listed(e)[..j]
      ensures forall k :: 0 <= k < j ==> Listed(e)[k] !in before + Listed(e)[..k]
    {
      hide *;
      PartlyEnds(owner, e);
      ServicesBegin(before, Listed(e));
      checkServices, services, j := seen, {}, 0;
      for k := 0 to |Listed(e)|
        invariant j == k && Distinct(before + Listed(e)[..k]) && checkServices == Items(before + Listed(e)[..k])
        invariant services == Items(Listed(e)[..k]) && serviceMap == Partly(owner, e, k)
        invariant forall l :: 0 <= l < k ==> Listed(e)[l] !in before + Listed(e)[..l]
      {
        var service := Listed(e)[k];
        PartlyNext(owner, e, k);
        ServiceNext(before, Listed(e), k);
        if service in checkServices {
          ok := false;
          return;
        }
        checkServices := checkServices + {service};
        serviceMap := serviceMap[service := e.name];
        services := services + {service};
        j := k + 1;
      }
      ok := true;
    }

    /** `load`, from empty maps: it succeeds exactly on an acceptable file, and then
        the maps are what the file describes and agree with each other. */
    method Load(entries: seq<Entry>) returns (ok: bool)
      requires serviceMap == map[] && actorMap == map[]
      modifies this
      ensures ok <==> Acceptable(entries)
      ensures ok ==> serviceMap == Owners(entries) && actorMap == Tables(entries)
      ensures ok ==> IndexAgrees(Config(serviceMap, actorMap))
      ensures !ok ==> exists i, j :: Refused(entries, serviceMap, actorMap, i, j)
    {
      var checkNames: set<Text>, checkServices: set<Text> := {}, {};
      NothingLoaded(entries);
      hide Acceptable, Partly, Owners, Tables, Names, Listing, Owned, Distinct, Items;
      for i := 0 to |entries|
        invariant Acceptable(entries[..i])
        invariant checkNames == Items(Names(entries[..i])) && checkServices == Items(Listing(entries[..i]))
        invariant serviceMap == Owners(entries[..i]) && actorMap == Tables(entries[..i])
      {
        var e := entries[i];
        ghost var fewer, j := entries[..i], 0;
        AcceptableOne(entries, i);
        PartlyNone(Owners(fewer), e);
        var fine := e.Actor?;
        if fine {
          ItemsSnoc(Names(fewer), e.name);
          fine := e.name !in checkNames;
          checkNames := checkNames + {e.name};
          if !fine {
            NameRepeated(entries, i);
          }
        }
        var services := {};
        if fine {
          fine := e.services.Some?;
          if fine {
            AcceptableListing(fewer);
            fine, checkServices, services, j := LoadServices(e, checkServices, Listing(fewer), Owners(fewer));
            if !fine {
              Repeated(entries, i, j);
            }
            fine := fine && e.whole;
          }
        }
        if !fine {
          assert Refused(entries, serviceMap, actorMap, i, j);
          RefusedFile(entries, serviceMap, actorMap, i, j);
          return false;
        }
        TableNames(fewer, e.name);
        if e.name !in actorMap {
          actorMap := actorMap[e.name := services];
        }
      }
      assert entries[..|entries|] == entries;
      AcceptedAgrees(entries);
      ok := true;
    }
  }
}
