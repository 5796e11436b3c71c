/**
 * The page-model preparation run in the page once the models are loaded:
 * for every page model with something to match, a parallel "identifier
 * model" is built that keeps the identifier nodes of the tree and resolves
 * every reference to another model of the registry on the way.
 *
 * Page models are JSON trees.  The walk is modelled on values: a call on a
 * node reports what it writes into the map it copies into (its
 * `Contribution`) and what becomes of the node in its original parent map
 * (removed, or kept with its own edits).
 */
module PageModels {
  import opened Wrappers
  import opened JsonValue

  // ---------------------------------------------------------------------
  // Which models have identifiers to run
  // ---------------------------------------------------------------------

  /**
   * `v.length > 0` for the value of a truthy `match`: strings and arrays by
   * their length, an object by its `length` member as a number; numbers and
   * booleans have no length.
   */
  predicate LengthPositive(v: Json)
  {
    match v
    case JStr(s) => |s| > 0
    case JArr(items) => |items| > 0
    case JObj(_) =>
      var n := ToNumber(Member(v, "length"));
      n.Some? && n.value > 0.0
    case _ => false
  }

  /** An object entry of `connect` whose `match` is truthy and non-empty. */
  predicate HasMatch(entry: Json)
  {
    TruthyMember(entry, "match") && LengthPositive(entry.fields["match"])
  }

  /**
   * The test `connect[i].match && connect[i].match.length > 0` on one entry:
   * a `null` entry throws; a string entry has the string method `match`,
   * a function of length 1, so it passes.
   */
  function EntryMatches(entry: Json): Result<bool, JsError>
  {
    match entry
    case JNull => Err(TypeError)
    case JStr(_) => Ok(true)
    case JObj(_) => Ok(HasMatch(entry))
    case _ => Ok(false)
  }

  /** The entries `connect[0]`, ..., `connect[connect.length - 1]` of a truthy `connect`. */
  function ConnectEntries(c: Json): (r: seq<Json>)
    ensures c.JArr? ==> r == c.items
  {
    match c
    case JArr(items) => items
    case JStr(s) => seq(|s|, i requires 0 <= i < |s| => JStr([s[i]]))
    case _ => []
  }

  /** The loop over the entries, stopping at the first that passes or throws. */
  function FirstMatch(entries: seq<Json>): Result<bool, JsError>
  {
    if entries == [] then Ok(false)
    else
      match EntryMatches(entries[0])
      case Err(e) => Err(e)
      case Ok(true) => Ok(true)
      case Ok(false) => FirstMatch(entries[1..])
  }

  /** `pageModelHasIdentifiersToRun(pageModel)`; reading `connect` of `null` throws. */
  function HasIdentifiersToRun(pageModel: Json): Result<bool, JsError>
  {
    match Read(Some(pageModel), "connect")
    case Err(e) => Err(e)
    case Ok(c) => if TruthyValue(c) then FirstMatch(ConnectEntries(c.value)) else Ok(false)
  }

  /** The loop as written, proved to compute `HasIdentifiersToRun`. */
  method PageModelHasIdentifiersToRun(pageModel: Json) returns (r: Result<bool, JsError>)
    ensures r == HasIdentifiersToRun(pageModel)
  {
    if pageModel.JNull? {
      return Err(TypeError);
    }
    var c := Member(pageModel, "connect");
    if !TruthyValue(c) {
      return Ok(false);
    }
    var entries := ConnectEntries(c.value);
    var i := 0;
    while i < |entries|
      invariant 0 <= i <= |entries|
      invariant FirstMatch(entries) == FirstMatch(entries[i..])
    {
      assert entries[i..][1..] == entries[i + 1..];
      var m := EntryMatches(entries[i]);
      if m.Err? {
        return Err(m.error);
      }
      if m.value {
        return Ok(true);
      }
      i := i + 1;
    }
    return Ok(false);
  }

  /** On entries that are all objects, the loop finds one exactly when some entry has a match. */
  lemma {:induction false} FirstMatchOfObjects(entries: seq<Json>)
    requires forall i :: 0 <= i < |entries| ==> entries[i].JObj?
    ensures FirstMatch(entries) == Ok(exists i :: 0 <= i < |entries| && HasMatch(entries[i]))
  {
    if entries != [] {
      FirstMatchOfObjects(entries[1..]);
      if !HasMatch(entries[0]) {
        assert forall i :: 1 <= i < |entries| ==> entries[i] == entries[1..][i - 1];
      }
    }
  }

  /**
   * A model whose `connect` is an array of objects has identifiers to run
   * exactly when some entry's `match` is non-empty; without a truthy
   * `connect` it has none.
   */
  lemma HasIdentifiersIff(pageModel: Json)
    requires pageModel.JObj?
    ensures !TruthyMember(pageModel, "connect") ==> HasIdentifiersToRun(pageModel) == Ok(false)
    ensures TruthyMember(pageModel, "connect") && pageModel.fields["connect"].JArr?
            && (forall i :: 0 <= i < |pageModel.fields["connect"].items| ==> pageModel.fields["connect"].items[i].JObj?)
            ==> HasIdentifiersToRun(pageModel)
                == Ok(exists i :: 0 <= i < |pageModel.fields["connect"].items| && HasMatch(pageModel.fields["connect"].items[i]))
  {
    if TruthyMember(pageModel, "connect") && pageModel.fields["connect"].JArr? {
      var items := pageModel.fields["connect"].items;
      if forall i :: 0 <= i < |items| ==> items[i].JObj? {
        FirstMatchOfObjects(items);
      }
    }
  }

  /**
   * The loop throws exactly when it reaches a `null` entry before any entry
   * that passes.
   */
  lemma {:induction false} FirstMatchThrows(entries: seq<Json>)
    ensures FirstMatch(entries).Err?
            <==> exists i :: 0 <= i < |entries| && entries[i].JNull?
                   && forall j :: 0 <= j < i ==> EntryMatches(entries[j]) == Ok(false)
  {
    if entries != [] {
      FirstMatchThrows(entries[1..]);
      var rest := entries[1..];
      if EntryMatches(entries[0]) == Ok(false) {
        if exists i :: 0 <= i < |rest| && rest[i].JNull? && forall j :: 0 <= j < i ==> EntryMatches(rest[j]) == Ok(false) {
          var i :| 0 <= i < |rest| && rest[i].JNull? && forall j :: 0 <= j < i ==> EntryMatches(rest[j]) == Ok(false);
          assert entries[i + 1].JNull?;
          assert forall j :: 0 <= j < i + 1 ==> EntryMatches(entries[j]) == Ok(false) by {
            forall j | 0 <= j < i + 1
              ensures EntryMatches(entries[j]) == Ok(false)
            {
              if j > 0 {
                assert entries[j] == rest[j - 1];
              }
            }
          }
        }
        if exists i :: 0 <= i < |entries| && entries[i].JNull? && forall j :: 0 <= j < i ==> EntryMatches(entries[j]) == Ok(false) {
          var i :| 0 <= i < |entries| && entries[i].JNull? && forall j :: 0 <= j < i ==> EntryMatches(entries[j]) == Ok(false);
          assert i > 0;
          assert rest[i - 1].JNull?;
          assert forall j :: 0 <= j < i - 1 ==> EntryMatches(rest[j]) == Ok(false) by {
            forall j | 0 <= j < i - 1
              ensures EntryMatches(rest[j]) == Ok(false)
            {
              assert rest[j] == entries[j + 1];
            }
          }
        }
      }
    }
  }

  // ---------------------------------------------------------------------
  // The walk over one page model
  // ---------------------------------------------------------------------

  /** `node.type == kind`; only an object has a `type`. */
  predicate IsKind(node: Json, kind: string)
  {
    Member(node, "type") == Some(JStr(kind))
  }

  /**
   * What one call of the walk writes into the map it copies into: a value
   * under its key `id` (a null id is the key "null"), fields merged
   * straight into the map, or nothing.
   */
  datatype Contribution = Entry(value: Json) | Merge(fields: map<string, Json>) | NoContribution

  /**
   * The outcome of the walk on one node: what it contributes, and the node
   * as its parent map holds it afterwards (`None`: deleted from the parent).
   * `Failed` is a thrown error or a recursion that does not end.
   */
  datatype WalkResult = Walked(contribution: Contribution, node: Option<Json>) | Failed

  function KeyOf(id: Option<string>): string
  {
    if id.Some? then id.value else "null"
  }

  /** The map `dest` after a call with key `id` has contributed `c` to it. */
  function Apply(dest: map<string, Json>, id: Option<string>, c: Contribution): (r: map<string, Json>)
    ensures c.Entry? ==> KeyOf(id) in r && r[KeyOf(id)] == c.value
    ensures c.Entry? ==> forall k :: k in dest && k != KeyOf(id) ==> k in r && r[k] == dest[k]
    ensures c.NoContribution? ==> r == dest
  {
    match c
    case Entry(v) => dest[KeyOf(id) := v]
    case Merge(m) => dest + m
    case NoContribution => dest
  }

  /** The fields an object's walk wrote, nested or merged. */
  function CopyOf(c: Contribution): map<string, Json>
  {
    match c
    case Entry(v) => if v.JObj? then v.fields else map[]
    case Merge(m) => m
    case NoContribution => map[]
  }

  /** A call on a fresh empty object, as for a model, an array's items and a resolved descriptor. */
  function Fresh(c: Contribution): map<string, Json>
  {
    Apply(map[], None, c)
  }

  /**
   * The members `for (prop in node.properties)` visits: those of an object.
   * The one-letter members of a string have no `type` and so change
   * nothing; `null` and `undefined` have none.
   */
  function Children(node: Json): map<string, Json>
  {
    match Member(node, "properties")
    case Some(JObj(f)) => f
    case _ => map[]
  }

  /**
   * The registry key `mapPageModels[ref]` reads: the string itself, or the
   * string JavaScript makes of `undefined`, `null`, a boolean or an object.
   * Numbers and arrays are not covered (`None`).
   */
  function RefKey(ref: Option<Json>): Option<string>
  {
    match ref
    case None => Some("undefined")
    case Some(JStr(s)) => Some(s)
    case Some(JNull) => Some("null")
    case Some(JBool(b)) => Some(if b then "true" else "false")
    case Some(JObj(_)) => Some("[object Object]")
    case Some(_) => None
  }

  /** `mapPageModels[ref]`: reading from a missing registry throws. */
  function Lookup(models: Option<Json>, ref: Option<Json>): Result<Option<Json>, JsError>
  {
    if models.None? || models.value.JNull? then Err(TypeError)
    else if RefKey(ref).None? then Ok(None)
    else Read(models, RefKey(ref).value)
  }

  /** The members `for (prop in subDescriptor)` copies: those of an object. */
  function SubFields(sub: Option<Json>): map<string, Json>
  {
    if sub.Some? && sub.value.JObj? then sub.value.fields else map[]
  }

  /** A descriptor node after the registry entry's members are copied over it and `connect` and `descriptor` are deleted. */
  function Resolve(node: Json, sub: Option<Json>): Json
    requires node.JObj?
  {
    JObj((node.fields + SubFields(sub)) - {"connect", "descriptor"})
  }

  /** The walk on each member of an object's `properties`, under its own key. */
  function ChildResults(children: map<string, Json>, models: Option<Json>, fuel: nat): (r: map<string, WalkResult>)
    ensures r.Keys == children.Keys
    decreases fuel, 2
  {
    map k | k in children :: Walk(Some(children[k]), Some(k), models, fuel)
  }

  /**
   * What the children of an object write into its fresh `properties` copy.
   * An object child under the empty key has a falsy id and merges its
   * fields into that map; it is taken to be visited first.
   */
  function PropertyCopies(results: map<string, WalkResult>): map<string, Json>
    requires forall k :: k in results ==> results[k].Walked?
  {
    var base := if "" in results && results[""].contribution.Merge? then results[""].contribution.fields else map[];
    base + map k | k in results && results[k].contribution.Entry? :: results[k].contribution.value
  }

  /** The `properties` of the original object afterwards: each child as edited, identifiers deleted. */
  function KeptChildren(results: map<string, WalkResult>): map<string, Json>
    requires forall k :: k in results ==> results[k].Walked?
  {
    map k | k in results && results[k].node.Some? :: results[k].node.value
  }

  /** The `object` case once its children are walked. */
  function ObjectStep(node: Json, id: Option<string>, results: map<string, WalkResult>): (r: WalkResult)
    requires node.JObj?
    ensures r.Walked? <==> forall k :: k in results ==> results[k].Walked?
  {
    if !forall k :: k in results ==> results[k].Walked? then Failed
    else
      var fields := node.fields["properties" := JObj(PropertyCopies(results))];
      var c := if id.Some? && id.value != "" then Entry(JObj(fields)) else Merge(fields);
      var kept := if Member(node, "properties").Some? && Member(node, "properties").value.JObj?
                  then JObj(node.fields["properties" := JObj(KeptChildren(results))])
                  else node;
      Walked(c, Some(kept))
  }

  /** The `array` case: the copy holds the array's fields, with `items` the walk of the original `items` into a fresh object. */
  function ArrayWalk(node: Json, models: Option<Json>, fuel: nat): (r: WalkResult)
    requires node.JObj?
    ensures r.Walked? ==> r.node.Some? && r.contribution.Entry?
    decreases fuel, 2
  {
    match Walk(Member(node, "items"), None, models, fuel)
    case Failed => Failed
    case Walked(c, edited) =>
      Walked(Entry(JObj(node.fields["items" := JObj(Fresh(c))])), Some(JObj(node.fields["items" := edited.value])))
  }

  /** The `descriptor` case: the node is resolved in place, then walked into a fresh object. */
  function DescriptorWalk(node: Json, models: Option<Json>, fuel: nat): (r: WalkResult)
    requires node.JObj?
    ensures r.Walked? ==> r.node.Some? && r.contribution.Entry?
    decreases fuel, 2
  {
    match Lookup(models, Member(node, "descriptor"))
    case Err(_) => Failed
    case Ok(sub) =>
      match Walk(Some(Resolve(node, sub)), None, models, fuel)
      case Failed => Failed
      case Walked(c, edited) => Walked(Entry(JObj(Fresh(c))), edited)
  }

  /**
   * `copyOverPageModelIdentifiersAndResolveSubModels(node, dest, id, models, parent)`.
   * A `null` or missing node throws when its `type` is read; `fuel` bounds
   * the depth of the recursion.
   */
  function Walk(node: Option<Json>, id: Option<string>, models: Option<Json>, fuel: nat): (r: WalkResult)
    ensures r.Walked? ==> node.Some? && (r.node.None? <==> id.Some? && IsKind(node.value, "identifier"))
    ensures r.Walked? && r.contribution.Merge? ==> IsKind(node.value, "object") && (id.None? || id.value == "")
    decreases fuel, 1
  {
    if fuel == 0 || node.None? || node.value.JNull? then Failed
    else
      var n := node.value;
      if IsKind(n, "object") then
        ObjectStep(n, id, ChildResults(Children(n), models, fuel - 1))
      else if IsKind(n, "array") then
        ArrayWalk(n, models, fuel - 1)
      else if IsKind(n, "identifier") then
        if id.Some? then Walked(Entry(n), None)
        else
          var kept := JObj(n.fields - {"null"});
          Walked(Entry(kept), Some(kept))
      else if IsKind(n, "descriptor") then
        DescriptorWalk(n, models, fuel - 1)
      else Walked(NoContribution, node)
  }

  /**
   * The walk as the script runs it: one recursive call per node and a loop
   * over the members of an object's `properties`; a failing call ends the
   * walk.
   */
  method CopyOver(node: Option<Json>, id: Option<string>, models: Option<Json>, fuel: nat) returns (r: WalkResult)
    ensures r == Walk(node, id, models, fuel)
    decreases fuel, 1
  {
    if fuel == 0 || node.None? || node.value.JNull? {
      return Failed;
    }
    var n := node.value;
    if IsKind(n, "object") {
      var results, failed := CopyOverChildren(Children(n), models, fuel - 1);
      if failed {
        return Failed;
      }
      return ObjectStep(n, id, results);
    } else if IsKind(n, "array") {
      var items := CopyOver(Member(n, "items"), None, models, fuel - 1);
      if items.Failed? {
        return Failed;
      }
      return Walked(Entry(JObj(n.fields["items" := JObj(Fresh(items.contribution))])),
                    Some(JObj(n.fields["items" := items.node.value])));
    } else if IsKind(n, "identifier") {
      if id.Some? {
        return Walked(Entry(n), None);
      }
      var kept := JObj(n.fields - {"null"});
      return Walked(Entry(kept), Some(kept));
    } else if IsKind(n, "descriptor") {
      var sub := Lookup(models, Member(n, "descriptor"));
      if sub.Err? {
        return Failed;
      }
      var resolved := CopyOver(Some(Resolve(n, sub.value)), None, models, fuel - 1);
      if resolved.Failed? {
        return Failed;
      }
      return Walked(Entry(JObj(Fresh(resolved.contribution))), resolved.node);
    }
    return Walked(NoContribution, node);
  }

  /** The loop `for (prop in node.properties)`, walking each member under its own key until one fails. */
  method CopyOverChildren(children: map<string, Json>, models: Option<Json>, fuel: nat)
    returns (results: map<string, WalkResult>, failed: bool)
    ensures !failed ==> results == ChildResults(children, models, fuel)
    ensures failed ==> exists k :: k in children && ChildResults(children, models, fuel)[k].Failed?
    decreases fuel, 2
  {
    results := map[];
    var remaining := children.Keys;
    while exists k :: k in remaining
      invariant remaining <= children.Keys
      invariant results.Keys == children.Keys - remaining
      invariant forall k :: k in results ==> results[k] == Walk(Some(children[k]), Some(k), models, fuel)
      decreases |remaining|
    {
      var k :| k in remaining;
      var child := CopyOver(Some(children[k]), Some(k), models, fuel);
      if child.Failed? {
        ChildResultAt(children, models, fuel, k);
        return results, true;
      }
      results := results[k := child];
      remaining := remaining - {k};
    }
    NoKeyLeft(remaining);
    ChildResultsAre(children, models, fuel, results);
    return results, false;
  }

  lemma ChildResultAt(children: map<string, Json>, models: Option<Json>, fuel: nat, k: string)
    requires k in children
    ensures ChildResults(children, models, fuel)[k] == Walk(Some(children[k]), Some(k), models, fuel)
  {
  }

  lemma ChildResultsAre(children: map<string, Json>, models: Option<Json>, fuel: nat, results: map<string, WalkResult>)
    requires results.Keys == children.Keys
    requires forall k :: k in results ==> results[k] == Walk(Some(children[k]), Some(k), models, fuel)
    ensures results == ChildResults(children, models, fuel)
  {
  }

  // ---------------------------------------------------------------------
  // What the walk does, case by case
  // ---------------------------------------------------------------------

  /**
   * An object is walked when all its children are.  Its copy holds every
   * field of the original except `properties`, which holds what the
   * children wrote; with a non-empty id it is nested under that id, and
   * otherwise merged into the map it copies into.
   */
  lemma ObjectCopy(node: Json, id: Option<string>, models: Option<Json>, fuel: nat)
    requires fuel > 0 && IsKind(node, "object")
    ensures Walk(Some(node), id, models, fuel).Walked?
            <==> forall k :: k in Children(node) ==> ChildResults(Children(node), models, fuel - 1)[k].Walked?
    ensures var results := ChildResults(Children(node), models, fuel - 1);
            var r := Walk(Some(node), id, models, fuel);
            (r.Walked? ==>
                  var copy := CopyOf(r.contribution);
                  && r.contribution == (if id.Some? && id.value != "" then Entry(JObj(copy)) else Merge(copy))
                  && copy.Keys == node.fields.Keys + {"properties"}
                  && (forall f :: f in node.fields && f != "properties" ==> copy[f] == node.fields[f])
                  && copy["properties"] == JObj(PropertyCopies(results)))
  {
    var results := ChildResults(Children(node), models, fuel - 1);
    var r := ObjectStep(node, id, results);
    assert Walk(Some(node), id, models, fuel) == r;
    assert r.Walked? <==> forall k :: k in results ==> results[k].Walked?;
  }

  /**
   * Every child that writes under its own key leaves exactly that value in
   * the object's `properties` copy, and nothing else is there but what an
   * object child under the empty key merges in.
   */
  lemma PropertyCopiesHoldChildren(results: map<string, WalkResult>)
    requires forall k :: k in results ==> results[k].Walked?
    ensures forall k :: k in results && results[k].contribution.Entry?
              ==> k in PropertyCopies(results) && PropertyCopies(results)[k] == results[k].contribution.value
    ensures forall k :: k in PropertyCopies(results) ==>
              (k in results && results[k].contribution.Entry?)
              || ("" in results && results[""].contribution.Merge? && k in results[""].contribution.fields)
  {
  }

  /**
   * An identifier under key `k` is stored, as it is, under `k` in the copy
   * and is deleted from its parent map.
   */
  lemma IdentifierMoved(node: Json, k: string, models: Option<Json>, fuel: nat)
    requires fuel > 0 && IsKind(node, "identifier")
    ensures Walk(Some(node), Some(k), models, fuel) == Walked(Entry(node), None)
    ensures Apply(map[], Some(k), Walk(Some(node), Some(k), models, fuel).contribution) == map[k := node]
  {
  }

  /**
   * Within an object: an identifier child is copied under its key into the
   * `properties` copy and no longer appears among the original's
   * `properties`.
   */
  lemma IdentifierChildMoved(node: Json, id: Option<string>, k: string, models: Option<Json>, fuel: nat)
    requires fuel > 0 && IsKind(node, "object")
    requires k in Children(node) && IsKind(Children(node)[k], "identifier")
    requires Walk(Some(node), id, models, fuel).Walked?
    ensures var r := Walk(Some(node), id, models, fuel);
            var copy := CopyOf(r.contribution);
            && "properties" in copy && copy["properties"].JObj?
            && k in copy["properties"].fields && copy["properties"].fields[k] == Children(node)[k]
            && r.node.Some? && k !in Children(r.node.value)
  {
    var results := ChildResults(Children(node), models, fuel - 1);
    assert Walk(Some(node), id, models, fuel) == ObjectStep(node, id, results);
    IdentifierMoved(Children(node)[k], k, models, fuel - 1);
    ObjectStepMovesIdentifier(node, id, results, k, Children(node)[k]);
  }

  lemma ObjectStepMovesIdentifier(node: Json, id: Option<string>, results: map<string, WalkResult>, k: string, v: Json)
    requires node.JObj? && k in Children(node) && k in results && results[k] == Walked(Entry(v), None)
    requires ObjectStep(node, id, results).Walked?
    ensures var r := ObjectStep(node, id, results);
            var copy := CopyOf(r.contribution);
            && "properties" in copy && copy["properties"].JObj?
            && k in copy["properties"].fields && copy["properties"].fields[k] == v
            && r.node.Some? && k !in Children(r.node.value)
  {
    PropertyCopiesHoldChildren(results);
  }

  /**
   * A descriptor is resolved: the registry entry's members overwrite the
   * node's, `connect` and `descriptor` are deleted, and the resolved node is
   * walked into a fresh object stored under the descriptor's id.  The
   * parent keeps the resolved node.
   */
  lemma DescriptorResolved(node: Json, id: Option<string>, models: Option<Json>, sub: Option<Json>, fuel: nat)
    requires fuel > 0 && IsKind(node, "descriptor")
    requires Lookup(models, Member(node, "descriptor")) == Ok(sub)
    ensures var resolved := Resolve(node, sub);
            && (forall f :: f in SubFields(sub) && f != "connect" && f != "descriptor"
                  ==> f in resolved.fields && resolved.fields[f] == SubFields(sub)[f])
            && (forall f :: f in node.fields && f !in SubFields(sub) && f != "connect" && f != "descriptor"
                  ==> f in resolved.fields && resolved.fields[f] == node.fields[f])
            && "connect" !in resolved.fields && "descriptor" !in resolved.fields
            && resolved.fields.Keys == (node.fields.Keys + SubFields(sub).Keys) - {"connect", "descriptor"}
            && var inner := Walk(Some(resolved), None, models, fuel - 1);
               var r := Walk(Some(node), id, models, fuel);
               && (r.Walked? <==> inner.Walked?)
               && (r.Walked? ==> r.contribution == Entry(JObj(Fresh(inner.contribution)))
                                 && r.node == inner.node && r.node.Some?)
  {
  }

  /** A descriptor whose registry lookup throws (no registry) makes the walk fail. */
  lemma DescriptorWithoutRegistry(node: Json, id: Option<string>, fuel: nat)
    requires IsKind(node, "descriptor")
    ensures Walk(Some(node), id, None, fuel) == Failed
  {
  }

  /**
   * An array's copy under its id holds all its fields, with `items`
   * replaced by the walk of the original `items` into a fresh object under
   * a null id; an array without `items` makes the walk fail.
   */
  lemma ArrayCopy(node: Json, id: Option<string>, models: Option<Json>, fuel: nat)
    requires fuel > 0 && IsKind(node, "array")
    ensures "items" !in node.fields ==> Walk(Some(node), id, models, fuel) == Failed
    ensures var inner := Walk(Member(node, "items"), None, models, fuel - 1);
            var r := Walk(Some(node), id, models, fuel);
            && (r.Walked? <==> inner.Walked?)
            && (r.Walked? ==>
                  && r.contribution.Entry? && r.contribution.value.JObj?
                  && var copy := r.contribution.value.fields;
                     && copy.Keys == node.fields.Keys + {"items"}
                     && (forall f :: f in node.fields && f != "items" ==> copy[f] == node.fields[f])
                     && copy["items"] == JObj(Fresh(inner.contribution))
                     && r.node == Some(JObj(node.fields["items" := inner.node.value])))
  {
  }

  /** A node of any other type contributes nothing and is left as it is. */
  lemma OtherKindInert(node: Json, id: Option<string>, models: Option<Json>, fuel: nat, dest: map<string, Json>)
    requires fuel > 0 && !node.JNull?
    requires !IsKind(node, "object") && !IsKind(node, "array") && !IsKind(node, "identifier") && !IsKind(node, "descriptor")
    ensures Walk(Some(node), id, models, fuel) == Walked(NoContribution, Some(node))
    ensures Apply(dest, id, Walk(Some(node), id, models, fuel).contribution) == dest
  {
  }

  /** Reading the `type` of a `null` or missing node throws. */
  lemma NullNodeFails(node: Option<Json>, id: Option<string>, models: Option<Json>, fuel: nat)
    requires node.None? || node.value.JNull?
    ensures Walk(node, id, models, fuel) == Failed
  {
  }

  /**
   * Fuel only bounds the recursion: once a walk finishes, more fuel gives
   * the same result.
   */
  lemma {:induction false} FuelSuffices(node: Option<Json>, id: Option<string>, models: Option<Json>, fuel: nat, more: nat)
    requires Walk(node, id, models, fuel).Walked? && fuel <= more
    ensures Walk(node, id, models, more) == Walk(node, id, models, fuel)
    decreases fuel, 1
  {
    var n := node.value;
    if IsKind(n, "object") {
      ObjectFuelSuffices(n, id, models, fuel, more);
    } else if IsKind(n, "array") {
      ArrayFuelSuffices(n, id, models, fuel, more);
    } else if IsKind(n, "descriptor") {
      DescriptorFuelSuffices(n, id, models, fuel, more);
    }
  }

  lemma {:induction false} ArrayFuelSuffices(n: Json, id: Option<string>, models: Option<Json>, fuel: nat, more: nat)
    requires IsKind(n, "array") && Walk(Some(n), id, models, fuel).Walked? && fuel <= more
    ensures Walk(Some(n), id, models, more) == Walk(Some(n), id, models, fuel)
    decreases fuel, 0
  {
    assert Walk(Some(n), id, models, fuel) == ArrayWalk(n, models, fuel - 1);
    FuelSuffices(Member(n, "items"), None, models, fuel - 1, more - 1);
  }

  lemma {:induction false} DescriptorFuelSuffices(n: Json, id: Option<string>, models: Option<Json>, fuel: nat, more: nat)
    requires IsKind(n, "descriptor") && Walk(Some(n), id, models, fuel).Walked? && fuel <= more
    ensures Walk(Some(n), id, models, more) == Walk(Some(n), id, models, fuel)
    decreases fuel, 0
  {
    assert Walk(Some(n), id, models, fuel) == DescriptorWalk(n, models, fuel - 1);
    var sub := Lookup(models, Member(n, "descriptor")).value;
    FuelSuffices(Some(Resolve(n, sub)), None, models, fuel - 1, more - 1);
  }

  lemma {:induction false} ObjectFuelSuffices(n: Json, id: Option<string>, models: Option<Json>, fuel: nat, more: nat)
    requires IsKind(n, "object") && Walk(Some(n), id, models, fuel).Walked? && fuel <= more
    ensures Walk(Some(n), id, models, more) == Walk(Some(n), id, models, fuel)
    decreases fuel, 0
  {
    var children := Children(n);
    var a := ChildResults(children, models, fuel - 1);
    var b := ChildResults(children, models, more - 1);
    assert Walk(Some(n), id, models, fuel) == ObjectStep(n, id, a);
    forall k | k in children
      ensures b[k] == a[k]
    {
      FuelSuffices(Some(children[k]), Some(k), models, fuel - 1, more - 1);
    }
    assert a == b;
  }

  /**
   * A descriptor whose registry entry has no `type` stays a descriptor
   * after resolving, now without a `descriptor` member, and is resolved
   * again through the registry's `"undefined"` entry; when that entry has no
   * `type` either, the recursion never ends and the walk fails for any
   * fuel.
   */
  lemma {:induction false} UntypedDescriptorLoops(node: Json, id: Option<string>, models: Option<Json>, sub: Option<Json>, fuel: nat)
    requires IsKind(node, "descriptor")
    requires Lookup(models, Member(node, "descriptor")) == Ok(sub) && "type" !in SubFields(sub)
    requires Lookup(models, None).Ok? && "type" !in SubFields(Lookup(models, None).value)
    ensures Walk(Some(node), id, models, fuel) == Failed
    decreases fuel
  {
    if fuel > 0 {
      var resolved := Resolve(node, sub);
      assert Member(resolved, "descriptor") == None;
      UntypedDescriptorLoops(resolved, None, models, Lookup(models, None).value, fuel - 1);
    }
  }

  // ---------------------------------------------------------------------
  // Loading all page models
  // ---------------------------------------------------------------------

  /** The identifier model built from a page model: the walk into a fresh object. */
  function IdentifierModel(c: Contribution): Json
  {
    JObj(Fresh(c))
  }

  /**
   * The state of the loop over `_listModels` after some models: the
   * identifier models pushed so far, the list with the walked models as
   * edited, and whether a model threw.
   */
  datatype Loaded = Loaded(stateModels: seq<Json>, list: seq<Json>, threw: bool)

  /** The loop body on model `j`. */
  function LoadOne(acc: Loaded, j: nat, models: Option<Json>, fuel: nat): (r: Loaded)
    requires j < |acc.list|
    ensures |r.list| == |acc.list|
  {
    match HasIdentifiersToRun(acc.list[j])
    case Err(_) => acc.(threw := true)
    case Ok(false) => acc
    case Ok(true) =>
      match Walk(Some(acc.list[j]), None, models, fuel)
      case Failed => acc.(threw := true)
      case Walked(c, edited) =>
        Loaded(acc.stateModels + [IdentifierModel(c)], acc.list[j := edited.value], false)
  }

  /** The loop body on model `j`, by the outcomes of its predicate and its walk. */
  lemma LoadOneCases(acc: Loaded, j: nat, models: Option<Json>, fuel: nat,
                     has: Result<bool, JsError>, walked: WalkResult)
    requires j < |acc.list|
    requires has == HasIdentifiersToRun(acc.list[j]) && walked == Walk(Some(acc.list[j]), None, models, fuel)
    ensures has.Err? ==> LoadOne(acc, j, models, fuel) == acc.(threw := true)
    ensures has == Ok(false) ==> LoadOne(acc, j, models, fuel) == acc
    ensures has == Ok(true) && walked.Failed? ==> LoadOne(acc, j, models, fuel) == acc.(threw := true)
    ensures has == Ok(true) && walked.Walked? ==>
      walked.node.Some?
      && LoadOne(acc, j, models, fuel)
         == Loaded(acc.stateModels + [IdentifierModel(walked.contribution)], acc.list[j := walked.node.value], false)
  {
  }

  /** The loop after its first `i` models; a throw ends it. */
  function LoadPrefix(list: seq<Json>, models: Option<Json>, fuel: nat, i: nat): (r: Loaded)
    requires i <= |list|
    ensures |r.list| == |list|
    ensures forall j :: i <= j < |list| ==> r.list[j] == list[j]
  {
    if i == 0 then Loaded([], list, false)
    else
      var prev := LoadPrefix(list, models, fuel, i - 1);
      if prev.threw then prev else LoadOne(prev, i - 1, models, fuel)
  }

  /** Once a model has thrown, the loop is over: later prefixes are the same. */
  lemma {:induction false} LoadPrefixStops(list: seq<Json>, models: Option<Json>, fuel: nat, i: nat, n: nat)
    requires i <= n <= |list| && LoadPrefix(list, models, fuel, i).threw
    ensures LoadPrefix(list, models, fuel, n) == LoadPrefix(list, models, fuel, i)
    decreases n
  {
    if n > i {
      LoadPrefixStops(list, models, fuel, i, n - 1);
      assert LoadPrefix(list, models, fuel, n - 1).threw;
    }
  }

  /** The identifier model of one page model, when it has identifiers to run and its walk finishes. */
  function ModelCopy(model: Json, models: Option<Json>, fuel: nat): seq<Json>
  {
    if HasIdentifiersToRun(model) == Ok(true) && Walk(Some(model), None, models, fuel).Walked?
    then [IdentifierModel(Walk(Some(model), None, models, fuel).contribution)]
    else []
  }

  /** One identifier model per page model that has identifiers to run, in list order. */
  function IdentifierModels(list: seq<Json>, models: Option<Json>, fuel: nat): seq<Json>
  {
    if list == [] then [] else ModelCopy(list[0], models, fuel) + IdentifierModels(list[1..], models, fuel)
  }

  /** Whether some model in the list throws, in the predicate or in its walk. */
  predicate SomeModelThrows(list: seq<Json>, models: Option<Json>, fuel: nat)
  {
    exists j :: 0 <= j < |list| && ModelThrows(list[j], models, fuel)
  }

  predicate ModelThrows(model: Json, models: Option<Json>, fuel: nat)
  {
    HasIdentifiersToRun(model).Err?
    || (HasIdentifiersToRun(model) == Ok(true) && Walk(Some(model), None, models, fuel).Failed?)
  }

  lemma {:induction false} IdentifierModelsSnoc(list: seq<Json>, models: Option<Json>, fuel: nat, i: nat)
    requires i < |list|
    ensures IdentifierModels(list[..i + 1], models, fuel) == IdentifierModels(list[..i], models, fuel) + ModelCopy(list[i], models, fuel)
    decreases i
  {
    if i > 0 {
      IdentifierModelsSnoc(list[1..], models, fuel, i - 1);
      assert list[..i + 1][1..] == list[1..][..i];
      assert list[..i][1..] == list[1..][..i - 1];
      assert list[1..][i - 1] == list[i];
    } else {
      assert list[..1][1..] == [];
    }
  }

  lemma ThrowsSnoc(list: seq<Json>, models: Option<Json>, fuel: nat, i: nat)
    requires i < |list|
    ensures SomeModelThrows(list[..i + 1], models, fuel)
            <==> SomeModelThrows(list[..i], models, fuel) || ModelThrows(list[i], models, fuel)
  {
    assert list[..i + 1][i] == list[i];
    if SomeModelThrows(list[..i + 1], models, fuel) && !ModelThrows(list[i], models, fuel) {
      var j :| 0 <= j < i + 1 && ModelThrows(list[..i + 1][j], models, fuel);
      assert list[..i][j] == list[..i + 1][j];
    }
    if SomeModelThrows(list[..i], models, fuel) {
      var j :| 0 <= j < i && ModelThrows(list[..i][j], models, fuel);
      assert list[..i][j] == list[..i + 1][j];
    }
  }

  /**
   * Until a model throws, the loop has pushed one identifier model per
   * model with identifiers to run, in order; it throws exactly at the first
   * model that throws.
   */
  lemma {:induction false} LoadPrefixCopies(list: seq<Json>, models: Option<Json>, fuel: nat, i: nat)
    requires i <= |list|
    ensures var r := LoadPrefix(list, models, fuel, i);
            && (r.threw <==> SomeModelThrows(list[..i], models, fuel))
            && (!r.threw ==> r.stateModels == IdentifierModels(list[..i], models, fuel))
    decreases i
  {
    if i > 0 {
      LoadPrefixCopies(list, models, fuel, i - 1);
      var prev := LoadPrefix(list, models, fuel, i - 1);
      if !prev.threw {
        assert prev.list[i - 1] == list[i - 1];
        LoadOneEffect(prev, i - 1, models, fuel);
        IdentifierModelsSnoc(list, models, fuel, i - 1);
      }
      ThrowsSnoc(list, models, fuel, i - 1);
    }
  }

  /** One turn of the loop throws exactly when its model throws, and otherwise pushes that model's copy, if any. */
  lemma LoadOneEffect(acc: Loaded, j: nat, models: Option<Json>, fuel: nat)
    requires j < |acc.list| && !acc.threw
    ensures LoadOne(acc, j, models, fuel).threw <==> ModelThrows(acc.list[j], models, fuel)
    ensures !LoadOne(acc, j, models, fuel).threw
            ==> LoadOne(acc, j, models, fuel).stateModels == acc.stateModels + ModelCopy(acc.list[j], models, fuel)
  {
  }

  /** The state of `window.powwow` the script works on. */
  class Powwow {
    var modelsLoaded: bool
    var stateModels: seq<Json>
    /** `_listModels`, `None` once deleted or when it is missing. */
    var listModels: Option<seq<Json>>
    /** The registry `models` descriptors refer to. */
    var models: Option<Json>

    constructor(list: Option<seq<Json>>, registry: Option<Json>)
      ensures !modelsLoaded && stateModels == [] && listModels == list && models == registry
    {
      modelsLoaded := false;
      stateModels := [];
      listModels := list;
      models := registry;
    }

    /**
     * The script's top-level block: mark the models loaded, build one
     * identifier model per page model that has identifiers to run, and
     * delete `_listModels`.  A throw leaves `_listModels` in place with the
     * models walked so far as edited.
     */
    method LoadModels(fuel: nat) returns (threw: bool)
      modifies this
      ensures modelsLoaded && models == old(models)
      ensures old(listModels).None? ==> threw && stateModels == [] && listModels == None
      ensures old(listModels).Some? ==>
                var r := LoadPrefix(old(listModels).value, models, fuel, |old(listModels).value|);
                && threw == r.threw && stateModels == r.stateModels
                && listModels == (if threw then Some(r.list) else None)
    {
      modelsLoaded := true;
      stateModels := [];
      if listModels.None? {
        return true;
      }
      var list := listModels.value;
      ghost var original := list;
      var i := 0;
      while i < |list|
        invariant 0 <= i <= |list| == |original|
        invariant modelsLoaded && models == old(models) && listModels == Some(list)
        invariant LoadPrefix(original, models, fuel, i) == Loaded(stateModels, list, false)
      {
        var has := PageModelHasIdentifiersToRun(list[i]);
        ghost var acc := Loaded(stateModels, list, false);
        LoadOneCases(acc, i, models, fuel, has, Walk(Some(list[i]), None, models, fuel));
        assert LoadPrefix(original, models, fuel, i + 1) == LoadOne(acc, i, models, fuel);
        if has.Err? {
          LoadPrefixStops(original, models, fuel, i + 1, |original|);
          return true;
        }
        if has.value {
          var walked := CopyOver(Some(list[i]), None, models, fuel);
          if walked.Failed? {
            LoadPrefixStops(original, models, fuel, i + 1, |original|);
            return true;
          }
          stateModels := stateModels + [IdentifierModel(walked.contribution)];
          list := list[i := walked.node.value];
          listModels := Some(list);
        }
        i := i + 1;
      }
      listModels := None;
      return false;
    }
  }

  /**
   * What the load leaves: `stateModels` holds one identifier model per page
   * model with identifiers to run, in list order, unless some model throws.
   */
  lemma LoadedModels(list: seq<Json>, models: Option<Json>, fuel: nat)
    ensures var r := LoadPrefix(list, models, fuel, |list|);
            && (r.threw <==> SomeModelThrows(list, models, fuel))
            && (!r.threw ==> r.stateModels == IdentifierModels(list, models, fuel))
  {
    LoadPrefixCopies(list, models, fuel, |list|);
    assert list[..|list|] == list;
  }
}
