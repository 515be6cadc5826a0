// The request plan: direct tools, the one search slot and the deferred frontier
// (backend/agent/native_tool_search.py).
module NativePlan {
  import opened Common
  import opened NativeSearch

  const SEARCH := "capability_search"

  // A catalogue entry with the body of its tool; entries are listed in dictionary order, one per id.
  datatype Entry = Entry(id: string, name: string, safe: bool, body: string)

  predicate OnePerId(catalog: seq<Entry>) {
    forall j, k :: 0 <= j < k < |catalog| ==> catalog[j].id != catalog[k].id
  }

  // The catalogue builder refuses duplicate provider names as well as duplicate ids.
  predicate OnePerName(catalog: seq<Entry>) {
    forall j, k :: 0 <= j < k < |catalog| ==> catalog[j].name != catalog[k].name
  }

  function Ids(catalog: seq<Entry>): set<string> { set e | e in catalog :: e.id }

  function SetOf(ids: seq<string>): set<string> { set id | id in ids }

  // The entries named by these ids, leaving out the search slot itself.
  function Chosen(catalog: seq<Entry>, ids: seq<string>): set<Entry> {
    set e | e in catalog && e.id in ids && e.id != SEARCH
  }

  function Names(entries: set<Entry>): set<string> { set e | e in entries :: e.name }

  // Wire name to canonical id; on a shared name the later entry wins.
  function CanonicalNames(catalog: seq<Entry>): map<string, string> {
    if catalog == [] then map[]
    else
      var e := catalog[|catalog| - 1];
      var before := CanonicalNames(catalog[..|catalog| - 1]);
      if e.id == SEARCH then before else before[e.name := e.id]
  }

  lemma {:induction false} CanonicalNamesAreTheEntries(catalog: seq<Entry>, name: string)
    ensures name in CanonicalNames(catalog) <==> exists e :: e in catalog && e.id != SEARCH && e.name == name
  {
    if catalog == [] {
    } else {
      var n := |catalog| - 1;
      CanonicalNamesAreTheEntries(catalog[..n], name);
      assert catalog == catalog[..n] + [catalog[n]];
    }
  }

  function Deferred(e: Entry): Definition { Definition(e.name, true, true, e.body) }

  function Lookup(catalog: seq<Entry>, id: string): (e: Entry)
    requires id in Ids(catalog)
    ensures e in catalog && e.id == id
  {
    var n := |catalog| - 1;
    if catalog[n].id == id then catalog[n] else Lookup(catalog[..n], id)
  }

  // Deferred definitions by name, in the plan's deferred order.
  function Definitions(catalog: seq<Entry>, ids: seq<string>): map<string, Definition> {
    if ids == [] then map[]
    else
      var id := ids[|ids| - 1];
      var before := Definitions(catalog, ids[..|ids| - 1]);
      if id == SEARCH || id !in Ids(catalog) then before
      else before[Lookup(catalog, id).name := Deferred(Lookup(catalog, id))]
  }

  lemma {:induction false} DefinitionsAreTheFrontier(catalog: seq<Entry>, ids: seq<string>, name: string)
    requires OnePerId(catalog)
    ensures name in Definitions(catalog, ids) <==> name in Names(Chosen(catalog, ids))
    ensures name in Definitions(catalog, ids) ==>
              exists e :: e in Chosen(catalog, ids) && e.name == name && Definitions(catalog, ids)[name] == Deferred(e)
  {
    if ids == [] {
    } else {
      var n := |ids| - 1;
      DefinitionsAreTheFrontier(catalog, ids[..n], name);
      assert ids == ids[..n] + [ids[n]];
      if ids[n] == SEARCH || ids[n] !in Ids(catalog) {
        assert Chosen(catalog, ids) == Chosen(catalog, ids[..n]);
      } else {
        var e := Lookup(catalog, ids[n]);
        OneEntryPerId(catalog);
        assert Chosen(catalog, ids) == Chosen(catalog, ids[..n]) + {e};
      }
    }
  }

  lemma OneEntryPerId(catalog: seq<Entry>)
    requires OnePerId(catalog)
    ensures forall a, b :: a in catalog && b in catalog && a.id == b.id ==> a == b
  {
  }

  lemma FrontierIsNamed(catalog: seq<Entry>, ids: seq<string>)
    ensures Names(Chosen(catalog, ids)) <= CanonicalNames(catalog).Keys
  {
    forall name | name in Names(Chosen(catalog, ids)) ensures name in CanonicalNames(catalog).Keys {
      CanonicalNamesAreTheEntries(catalog, name);
    }
  }

  // `synthetic` maps extra direct tools to their canonical ids.
  function BuildPlan(catalog: seq<Entry>, direct: seq<string>, deferred: seq<string>, synthetic: map<string, string>)
    : (plan: Option<Plan>)
    requires OnePerId(catalog)
  {
    var canonical := CanonicalNames(catalog);
    var frontier := Chosen(catalog, deferred);
    if SetOf(direct) + SetOf(deferred) != Ids(catalog) || SetOf(direct) * SetOf(deferred) != {} then None
    else if frontier == {} then None
    else if synthetic.Keys * canonical.Keys != {} then None
    else
      FrontierIsNamed(catalog, deferred);
      Some(PlanData(Names(Chosen(catalog, direct)) + synthetic.Keys, Names(frontier), canonical + synthetic,
                    Definitions(catalog, deferred), Names(set e | e in frontier && e.safe)))
  }

  // A plan is built exactly when every catalogue id is on one side and one side only, no other id is on any,
  // some tool besides the search slot is deferred, and no extra tool takes the name of a catalogue tool.
  lemma PlanIsBuiltExactly(catalog: seq<Entry>, direct: seq<string>, deferred: seq<string>,
                           synthetic: map<string, string>)
    requires OnePerId(catalog)
    ensures BuildPlan(catalog, direct, deferred, synthetic).Some? <==>
              && (forall e :: e in catalog ==> (e.id in direct <==> e.id !in deferred))
              && (forall id :: id in direct || id in deferred ==> exists e :: e in catalog && e.id == id)
              && (exists e :: e in catalog && e.id in deferred && e.id != SEARCH)
              && (forall e :: e in catalog && e.id != SEARCH ==> e.name !in synthetic)
  {
    SidesAreExact(catalog, direct, deferred);
    if e :| e in catalog && e.id in deferred && e.id != SEARCH {
      assert e in Chosen(catalog, deferred);
    }
    if e :| e in Chosen(catalog, deferred) {
      assert e in catalog && e.id in deferred && e.id != SEARCH;
    }
    forall e | e in catalog && e.id != SEARCH
      ensures e.name in synthetic ==> e.name in synthetic.Keys * CanonicalNames(catalog).Keys
    {
      CanonicalNamesAreTheEntries(catalog, e.name);
    }
    if name :| name in synthetic.Keys * CanonicalNames(catalog).Keys {
      CanonicalNamesAreTheEntries(catalog, name);
    }
  }

  lemma SidesAreExact(catalog: seq<Entry>, direct: seq<string>, deferred: seq<string>)
    ensures SetOf(direct) + SetOf(deferred) == Ids(catalog) && SetOf(direct) * SetOf(deferred) == {} <==>
              && (forall e :: e in catalog ==> (e.id in direct <==> e.id !in deferred))
              && (forall id :: id in direct || id in deferred ==> exists e :: e in catalog && e.id == id)
  {
    if SetOf(direct) + SetOf(deferred) == Ids(catalog) && SetOf(direct) * SetOf(deferred) == {} {
      forall e | e in catalog ensures e.id in direct <==> e.id !in deferred {
        assert e.id in Ids(catalog) && e.id in SetOf(direct) + SetOf(deferred);
        assert e.id in direct && e.id in deferred ==> e.id in SetOf(direct) * SetOf(deferred);
      }
      forall id | id in direct || id in deferred ensures exists e :: e in catalog && e.id == id {
        assert id in SetOf(direct) + SetOf(deferred) && id in Ids(catalog);
      }
    }
  }

  // Entries on the two sides that share a wire name.
  predicate Clash(left: set<Entry>, right: set<Entry>) {
    exists a, b :: a in left && b in right && a.name == b.name
  }

  lemma NamesClash(left: set<Entry>, right: set<Entry>, extra: set<string>)
    requires extra !! Names(right)
    ensures Names(left) + extra !! Names(right) <==> !Clash(left, right)
  {
    if Clash(left, right) {
      var a, b :| a in left && b in right && a.name == b.name;
      assert a.name in Names(left) && b.name in Names(right);
    }
    forall name | name in Names(left) && name in Names(right) ensures Clash(left, right) {
      var a :| a in left && a.name == name;
      var b :| b in right && b.name == name;
    }
  }

  lemma SidesApart(catalog: seq<Entry>, direct: seq<string>, deferred: seq<string>)
    requires OnePerName(catalog) && SetOf(direct) * SetOf(deferred) == {}
    ensures !Clash(Chosen(catalog, direct), Chosen(catalog, deferred))
  {
    forall a, b | a in Chosen(catalog, direct) && b in Chosen(catalog, deferred) ensures a.name != b.name {
      assert a.id in SetOf(direct) && b.id in SetOf(deferred);
      assert a.id in SetOf(deferred) ==> a.id in SetOf(direct) * SetOf(deferred);
    }
  }

  // A built plan partitions the wire names: every one is direct or deferred and never both.
  lemma PlanPartitions(catalog: seq<Entry>, direct: seq<string>, deferred: seq<string>, synthetic: map<string, string>)
    requires OnePerId(catalog) && OnePerName(catalog) && BuildPlan(catalog, direct, deferred, synthetic).Some?
    ensures var plan := BuildPlan(catalog, direct, deferred, synthetic).value;
            plan.direct + plan.deferred == plan.canonical.Keys && plan.direct !! plan.deferred
  {
    EveryNameIsPlanned(catalog, direct, deferred, synthetic);
    SyntheticApart(catalog, direct, deferred, synthetic);
    SidesApart(catalog, direct, deferred);
    NamesClash(Chosen(catalog, direct), Chosen(catalog, deferred), synthetic.Keys);
  }

  lemma {:induction false} OwnCanonicalName(catalog: seq<Entry>, e: Entry)
    requires OnePerName(catalog) && e in catalog && e.id != SEARCH
    ensures e.name in CanonicalNames(catalog) && CanonicalNames(catalog)[e.name] == e.id
  {
    var n := |catalog| - 1;
    if catalog[n] == e {
    } else {
      assert catalog == catalog[..n] + [catalog[n]];
      OwnCanonicalName(catalog[..n], e);
    }
  }

  lemma NameOfChosen(catalog: seq<Entry>, ids: seq<string>, e: Entry)
    requires OnePerName(catalog) && e in catalog && e.id != SEARCH
    ensures e.name in Names(Chosen(catalog, ids)) <==> e.id in ids
  {
    if e.name in Names(Chosen(catalog, ids)) {
      var a :| a in Chosen(catalog, ids) && a.name == e.name;
    }
    if e.id in ids {
      assert e in Chosen(catalog, ids);
    }
  }

  lemma SafeNames(catalog: seq<Entry>, ids: seq<string>, e: Entry)
    requires OnePerName(catalog) && e in catalog && e.id != SEARCH
    ensures e.name in Names(set a | a in Chosen(catalog, ids) && a.safe) <==> e.id in ids && e.safe
  {
    var safe := set a | a in Chosen(catalog, ids) && a.safe;
    if e.name in Names(safe) {
      var a :| a in safe && a.name == e.name;
    }
    if e.id in ids && e.safe {
      assert e in safe;
    }
  }

  // Every catalogue entry keeps its own identity through the plan: its wire name resolves to its own
  // canonical id, sits on the side its id was put on, and, when deferred, is bound to its own definition and
  // marked safe exactly when the entry itself is.
  lemma PlanPlacesEveryEntry(catalog: seq<Entry>, direct: seq<string>, deferred: seq<string>,
                             synthetic: map<string, string>, e: Entry)
    requires OnePerId(catalog) && OnePerName(catalog) && BuildPlan(catalog, direct, deferred, synthetic).Some?
    requires e in catalog && e.id != SEARCH
    ensures var plan := BuildPlan(catalog, direct, deferred, synthetic).value;
            && e.name in plan.canonical && plan.canonical[e.name] == e.id
            && (e.name in plan.direct <==> e.id in direct)
            && (e.name in plan.deferred <==> e.id in deferred)
            && (e.id in deferred ==> e.name in plan.definitions && plan.definitions[e.name] == Deferred(e))
            && (e.name in plan.safe <==> e.id in deferred && e.safe)
  {
    SafeNames(catalog, deferred, e);
    OwnCanonicalName(catalog, e);
    NotSynthetic(catalog, direct, deferred, synthetic, e);
    NameOfChosen(catalog, direct, e);
    NameOfChosen(catalog, deferred, e);
    DefinitionsAreTheFrontier(catalog, deferred, e.name);
    if e.id in deferred {
      var a :| a in Chosen(catalog, deferred) && a.name == e.name &&
               Definitions(catalog, deferred)[e.name] == Deferred(a);
    }
  }

  lemma NotSynthetic(catalog: seq<Entry>, direct: seq<string>, deferred: seq<string>, synthetic: map<string, string>,
                     e: Entry)
    requires OnePerId(catalog) && BuildPlan(catalog, direct, deferred, synthetic).Some?
    requires e.name in CanonicalNames(catalog)
    ensures e.name !in synthetic
  {
    assert e.name in synthetic ==> e.name in synthetic.Keys * CanonicalNames(catalog).Keys;
  }

  lemma SyntheticApart(catalog: seq<Entry>, direct: seq<string>, deferred: seq<string>, synthetic: map<string, string>)
    requires OnePerId(catalog) && BuildPlan(catalog, direct, deferred, synthetic).Some?
    ensures synthetic.Keys !! Names(Chosen(catalog, deferred))
  {
    forall name | name in Names(Chosen(catalog, deferred)) ensures name !in synthetic.Keys {
      FrontierIsNamed(catalog, deferred);
      assert name in synthetic.Keys ==> name in synthetic.Keys * CanonicalNames(catalog).Keys;
    }
  }

  // Every deferred name is bound to the exact definition the wire carries, and only those may be marked safe.
  lemma PlanBindsDeferred(catalog: seq<Entry>, direct: seq<string>, deferred: seq<string>,
                          synthetic: map<string, string>, name: string)
    requires OnePerId(catalog) && BuildPlan(catalog, direct, deferred, synthetic).Some?
    ensures var plan := BuildPlan(catalog, direct, deferred, synthetic).value;
            && (name in plan.deferred <==> name in plan.definitions)
            && (name in plan.deferred ==> Eligible(plan, plan.definitions[name]) && plan.definitions[name].name == name)
            && (name in plan.safe ==> name in plan.deferred)
  {
    DefinitionsAreTheFrontier(catalog, deferred, name);
    var frontier := Chosen(catalog, deferred);
    var safe := set e | e in frontier && e.safe;
    if name in Names(safe) {
      var e :| e in safe && e.name == name;
      assert e in frontier;
    }
  }

  lemma EveryNameIsPlanned(catalog: seq<Entry>, direct: seq<string>, deferred: seq<string>,
                           synthetic: map<string, string>)
    requires OnePerId(catalog) && BuildPlan(catalog, direct, deferred, synthetic).Some?
    ensures var plan := BuildPlan(catalog, direct, deferred, synthetic).value;
            plan.direct + plan.deferred == plan.canonical.Keys
  {
    FrontierIsNamed(catalog, direct);
    FrontierIsNamed(catalog, deferred);
    SidesCover(catalog, direct, deferred);
  }

  lemma SidesCover(catalog: seq<Entry>, direct: seq<string>, deferred: seq<string>)
    requires SetOf(direct) + SetOf(deferred) == Ids(catalog)
    ensures CanonicalNames(catalog).Keys <= Names(Chosen(catalog, direct)) + Names(Chosen(catalog, deferred))
  {
    forall name | name in CanonicalNames(catalog).Keys
      ensures name in Names(Chosen(catalog, direct)) + Names(Chosen(catalog, deferred))
    {
      CanonicalNamesAreTheEntries(catalog, name);
      var e :| e in catalog && e.id != SEARCH && e.name == name;
      assert e.id in Ids(catalog);
      assert e in Chosen(catalog, direct) || e in Chosen(catalog, deferred);
    }
  }
}
