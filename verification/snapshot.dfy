/**
 * Snapshot assembly: the payload published for one event, with the twin's current
 * properties and its outgoing relationships resolved to internal or external targets.
 */
module Snapshots {
  import opened Outcomes
  import opened JsonNodes
  import opened TwinStore
  import opened EventTypes
  import opened Classifier

  /** The payload sent to clients; `properties` and `relationships` are absent after a delete. */
  datatype Snapshot = Snapshot(
    dtId: string,
    eventType: string,
    eventDateTime: Option<string>,
    properties: Option<map<string, Json>>,
    relationships: Option<seq<map<string, Json>>>)

  /** Keys the store adds to every relationship, in the order the broadcaster removes them. */
  const RelationshipBookkeepingKeys: seq<string> := ["$relationshipId", "$etag"]
  const RelationshipBookkeeping: set<string> := set k | k in RelationshipBookkeepingKeys

  /** The relationship's target twin id, null when `$targetId` is missing or null. */
  function TargetOf(relationship: map<string, Json>): Result<Option<string>>
  {
    NodeText(Get(relationship, "$targetId"))
  }

  /** Relationships that name a target; the others are left out of a snapshot. */
  predicate HasTarget(relationship: map<string, Json>)
  {
    TargetOf(relationship).Ok? && TargetOf(relationship).value.Some?
  }

  /** The public `uri` of an external twin; a twin without one makes the lookup throw. */
  function UriOf(id: string, twin: Twin): Result<string>
  {
    if "uri" in Properties(twin) then ElementText(Properties(twin)["uri"]) else Err(MissingUri(id))
  }

  /**
   * One relationship as published: `None` when it has no target, otherwise without its
   * bookkeeping keys, marked `external` or not, and pointing at the target's public uri
   * when the target is external.
   */
  function ShapeRelationship(store: Store, relationship: map<string, Json>): (r: Result<Option<map<string, Json>>>)
    ensures r == Ok(None) <==> TargetOf(relationship) == Ok(None)
    ensures r.Err? && r.fault.TwinNotFound? ==>
              TargetOf(relationship) == Ok(Some(r.fault.id)) && r.fault.id !in store
    ensures r.Err? && r.fault.MissingUri? ==>
              TargetOf(relationship) == Ok(Some(r.fault.id)) && r.fault.id in store
              && store[r.fault.id].modelId == ExternalDTModel
    ensures forall t :: TargetOf(relationship) == Ok(Some(t)) && t in store && store[t].modelId != ExternalDTModel ==>
              r == Ok(Some((relationship - RelationshipBookkeeping)["external" := JBool(false)]["$targetId" := JString(t)]))
    ensures forall t :: TargetOf(relationship) == Ok(Some(t)) && t in store && store[t].modelId == ExternalDTModel
                        && UriOf(t, store[t]).Ok? ==>
              r == Ok(Some((relationship - RelationshipBookkeeping)["external" := JBool(true)]["$targetId" := JString(UriOf(t, store[t]).value)]))
    ensures r.Err? ==>
              || (TargetOf(relationship).Err? && r == Err(TargetOf(relationship).fault))
              || (exists t :: TargetOf(relationship) == Ok(Some(t)) && t !in store && r == Err(TwinNotFound(t)))
              || (exists t :: TargetOf(relationship) == Ok(Some(t)) && t in store && store[t].modelId == ExternalDTModel
                              && UriOf(t, store[t]).Err? && r == Err(UriOf(t, store[t]).fault))
  {
    match TargetOf(relationship)
    case Err(f) => Err(f)
    case Ok(None) => Ok(None)
    case Ok(Some(target)) =>
      var stripped := relationship - RelationshipBookkeeping;
      match GetTwin(store, target)
      case Err(f) => Err(f)
      case Ok(targetTwin) =>
        if targetTwin.modelId == ExternalDTModel then
          match UriOf(target, targetTwin)
          case Err(f) => Err(f)
          case Ok(uri) => Ok(Some(stripped["external" := JBool(true)]["$targetId" := JString(uri)]))
        else
          Ok(Some(stripped["external" := JBool(false)]["$targetId" := JString(target)]))
  }

  /** The relationships processed in the store's order; the first fault aborts the whole list. */
  function ShapeRelationships(store: Store, relationships: seq<map<string, Json>>): Result<seq<map<string, Json>>>
    decreases |relationships|
  {
    if relationships == [] then Ok([])
    else
      var last := |relationships| - 1;
      match ShapeRelationships(store, relationships[..last])
      case Err(f) => Err(f)
      case Ok(kept) =>
        match ShapeRelationship(store, relationships[last])
        case Err(f) => Err(f)
        case Ok(None) => Ok(kept)
        case Ok(Some(shaped)) => Ok(kept + [shaped])
  }

  /** Reference filter: the relationships that name a target, in order. */
  function WithTarget(relationships: seq<map<string, Json>>): seq<map<string, Json>>
  {
    if relationships == [] then []
    else (if HasTarget(relationships[0]) then [relationships[0]] else []) + WithTarget(relationships[1..])
  }

  /**
   * What the broadcaster builds for an event, or null when the event names no twin. A
   * snapshot carries properties and relationships together, exactly for the event types
   * that fetch the twin; the others read nothing from the store, so they fail only when
   * the twin id cannot be read.
   */
  function Handle(e: CloudEvent, store: Store): (r: Result<Option<Snapshot>>)
    ensures r.Ok? && r.value.Some? ==>
              (r.value.value.properties.Some? <==> NeedsSnapshot(e.eventType))
              && (r.value.value.relationships.Some? <==> NeedsSnapshot(e.eventType))
    ensures !NeedsSnapshot(e.eventType) ==> (r.Err? <==> TwinIdFromEvent(e).Err?)
    ensures r.Err? && r.fault.TwinNotFound? && TwinIdFromEvent(e).Ok? ==> NeedsSnapshot(e.eventType)
    ensures forall id :: NeedsSnapshot(e.eventType) && TwinIdFromEvent(e) == Ok(Some(id)) ==>
              (r.Err? <==> id !in store || ShapeRelationships(store, store[id].relationships).Err?)
  {
    match TwinIdFromEvent(e)
    case Err(f) => Err(f)
    case Ok(None) => Ok(None)
    case Ok(Some(id)) =>
      var header := Snapshot(id, MapEventType(e.eventType), e.time, None, None);
      if !NeedsSnapshot(e.eventType) then Ok(Some(header))
      else
        match GetTwin(store, id)
        case Err(f) => Err(f)
        case Ok(twin) =>
          match ShapeRelationships(store, twin.relationships)
          case Err(f) => Err(f)
          case Ok(kept) => Ok(Some(header.(properties := Some(Properties(twin)), relationships := Some(kept))))
  }

  /** Removing each of `keys` from a JSON object in turn. */
  method RemoveKeys(fields: map<string, Json>, keys: seq<string>) returns (r: map<string, Json>)
    ensures r.Keys == fields.Keys - set k | k in keys
    ensures forall k :: k in r ==> r[k] == fields[k]
  {
    r := fields;
    var i := 0;
    while i < |keys|
      invariant 0 <= i <= |keys|
      invariant r.Keys == fields.Keys - set k | k in keys[..i]
      invariant forall k :: k in r ==> r[k] == fields[k]
    {
      assert keys[..i + 1] == keys[..i] + [keys[i]];
      r := r - {keys[i]};
      i := i + 1;
    }
    assert keys[..i] == keys;
  }

  /**
   * Handling one event: the twin id, the event kind and time, and for every event but a
   * delete the twin's properties and its outgoing relationships, walked in order.
   */
  method HandleEvent(e: CloudEvent, store: Store) returns (r: Result<Option<Snapshot>>)
    ensures r == Handle(e, store)
  {
    var id := TwinIdFromEvent(e);
    if id.Err? {
      return Err(id.fault);
    }
    if id.value.None? {
      return Ok(None);
    }
    var digitalTwinId := id.value.value;
    var returnedEvent := Snapshot(digitalTwinId, MapEventType(e.eventType), e.time, None, None);
    if NeedsSnapshot(e.eventType) {
      var fetched := GetTwin(store, digitalTwinId);
      if fetched.Err? {
        return Err(fetched.fault);
      }
      var digitalTwin := RemoveKeys(fetched.value.document, TwinBookkeepingKeys);
      assert digitalTwin == Properties(fetched.value);
      var relationships := fetched.value.relationships;
      var kept: seq<map<string, Json>> := [];
      var i := 0;
      while i < |relationships|
        invariant 0 <= i <= |relationships|
        invariant ShapeRelationships(store, relationships[..i]) == Ok(kept)
      {
        assert relationships[..i + 1][..i] == relationships[..i];
        var relationship := relationships[i];
        var target := TargetOf(relationship);
        if target.Err? {
          FaultAborts(store, relationships, i);
          return Err(target.fault);
        }
        if target.value.Some? {
          var targetId := target.value.value;
          relationship := RemoveKeys(relationship, RelationshipBookkeepingKeys);
          assert relationship == relationships[i] - RelationshipBookkeeping;
          var targetTwin := GetTwin(store, targetId);
          if targetTwin.Err? {
            FaultAborts(store, relationships, i);
            return Err(targetTwin.fault);
          }
          var isExternal := targetTwin.value.modelId == ExternalDTModel;
          relationship := relationship["external" := JBool(isExternal)];
          if isExternal {
            var uri := UriOf(targetId, targetTwin.value);
            if uri.Err? {
              FaultAborts(store, relationships, i);
              return Err(uri.fault);
            }
            relationship := relationship["$targetId" := JString(uri.value)];
          } else {
            relationship := relationship["$targetId" := JString(targetId)];
          }
          kept := kept + [relationship];
        }
        i := i + 1;
      }
      assert relationships[..i] == relationships;
      returnedEvent := returnedEvent.(properties := Some(digitalTwin), relationships := Some(kept));
    }
    return Ok(Some(returnedEvent));
  }

  /** Used by HandleEvent: a fault at position `i`, after a prefix that succeeded, aborts the list. */
  lemma FaultAborts(store: Store, relationships: seq<map<string, Json>>, i: nat)
    requires i < |relationships|
    requires ShapeRelationships(store, relationships[..i]).Ok?
    requires ShapeRelationship(store, relationships[i]).Err?
    ensures ShapeRelationships(store, relationships) == Err(ShapeRelationship(store, relationships[i]).fault)
  {
    ShapeRelationshipsOkIff(store, relationships[..i]);
    FirstFaultWins(store, relationships, i);
  }

  /** The list is produced exactly when every relationship in it can be processed. */
  lemma {:induction false} ShapeRelationshipsOkIff(store: Store, relationships: seq<map<string, Json>>)
    ensures ShapeRelationships(store, relationships).Ok? <==>
            forall i :: 0 <= i < |relationships| ==> ShapeRelationship(store, relationships[i]).Ok?
    decreases |relationships|
  {
    if relationships != [] {
      var last := |relationships| - 1;
      var prefix := relationships[..last];
      ShapeRelationshipsOkIff(store, prefix);
      assert forall i :: 0 <= i < last ==> prefix[i] == relationships[i];
    }
  }

  /**
   * The fault of the first relationship that cannot be processed is the fault of the
   * whole list: a missing target twin or `uri` is never a silent drop.
   */
  lemma {:induction false} FirstFaultWins(store: Store, relationships: seq<map<string, Json>>, i: nat)
    requires i < |relationships|
    requires forall j :: 0 <= j < i ==> ShapeRelationship(store, relationships[j]).Ok?
    requires ShapeRelationship(store, relationships[i]).Err?
    ensures ShapeRelationships(store, relationships) == Err(ShapeRelationship(store, relationships[i]).fault)
    decreases |relationships|
  {
    var last := |relationships| - 1;
    var prefix := relationships[..last];
    if i == last {
      ShapeRelationshipsOkIff(store, prefix);
    } else {
      assert prefix[i] == relationships[i];
      FirstFaultWins(store, prefix, i);
    }
  }

  lemma {:induction false} WithTargetSnoc(relationships: seq<map<string, Json>>, r: map<string, Json>)
    ensures WithTarget(relationships + [r]) == WithTarget(relationships) + (if HasTarget(r) then [r] else [])
    decreases |relationships|
  {
    if relationships != [] {
      assert (relationships + [r])[1..] == relationships[1..] + [r];
      WithTargetSnoc(relationships[1..], r);
    }
  }

  /** The positions of the relationships that have a target, in increasing order. */
  function TargetPositions(relationships: seq<map<string, Json>>): seq<nat>
  {
    if relationships == [] then []
    else
      var rest := TargetPositions(relationships[1..]);
      (if HasTarget(relationships[0]) then [0] else []) + seq(|rest|, k requires 0 <= k < |rest| => rest[k] + 1)
  }

  /** The filter keeps only relationships of the input that have a target, all of them, and no more than the input holds. */
  lemma {:induction false} WithTargetMembers(relationships: seq<map<string, Json>>)
    ensures |WithTarget(relationships)| <= |relationships|
    ensures forall r :: r in WithTarget(relationships) <==> r in relationships && HasTarget(r)
    decreases |relationships|
  {
    if relationships != [] {
      WithTargetMembers(relationships[1..]);
      assert relationships == [relationships[0]] + relationships[1..];
    }
  }

  /** Each kept relationship is the input's relationship at the matching position. */
  lemma {:induction false} TargetPositionsIndex(relationships: seq<map<string, Json>>)
    ensures |TargetPositions(relationships)| == |WithTarget(relationships)|
    ensures forall j :: 0 <= j < |TargetPositions(relationships)| ==>
              TargetPositions(relationships)[j] < |relationships|
              && WithTarget(relationships)[j] == relationships[TargetPositions(relationships)[j]]
    decreases |relationships|
  {
    if relationships != [] {
      var tail := relationships[1..];
      TargetPositionsIndex(tail);
      var d := if HasTarget(relationships[0]) then 1 else 0;
      var pos := TargetPositions(relationships);
      forall j | 0 <= j < |pos|
        ensures pos[j] < |relationships| && WithTarget(relationships)[j] == relationships[pos[j]]
      {
        if j >= d {
          assert pos[j] == TargetPositions(tail)[j - d] + 1;
          assert WithTarget(relationships)[j] == WithTarget(tail)[j - d];
        }
      }
    }
  }

  /** The positions increase strictly, so the kept relationships keep the input's order. */
  lemma {:induction false} TargetPositionsIncreasing(relationships: seq<map<string, Json>>)
    ensures forall j1, j2 :: 0 <= j1 < j2 < |TargetPositions(relationships)| ==>
              TargetPositions(relationships)[j1] < TargetPositions(relationships)[j2]
    decreases |relationships|
  {
    if relationships != [] {
      var tail := relationships[1..];
      TargetPositionsIncreasing(tail);
      var d := if HasTarget(relationships[0]) then 1 else 0;
      var pos := TargetPositions(relationships);
      forall j | d <= j < |pos|
        ensures pos[j] == TargetPositions(tail)[j - d] + 1
      {
      }
    }
  }

  /** Every targeted relationship of the input has its position among the kept ones. */
  lemma {:induction false} TargetPositionsComplete(relationships: seq<map<string, Json>>)
    ensures forall i :: 0 <= i < |relationships| && HasTarget(relationships[i]) ==> i in TargetPositions(relationships)
    decreases |relationships|
  {
    if relationships != [] {
      var tail := relationships[1..];
      TargetPositionsComplete(tail);
      var d := if HasTarget(relationships[0]) then 1 else 0;
      var rest := TargetPositions(tail);
      var pos := TargetPositions(relationships);
      forall i | 0 <= i < |relationships| && HasTarget(relationships[i])
        ensures i in pos
      {
        if i > 0 {
          assert tail[i - 1] == relationships[i];
          var j :| 0 <= j < |rest| && rest[j] == i - 1;
          assert pos[j + d] == i;
        }
      }
    }
  }

  /**
   * The reference filter keeps a subsequence: the kept relationships sit at strictly
   * increasing positions of the input, and they are all the input's targeted ones.
   */
  lemma WithTargetIsSubsequence(relationships: seq<map<string, Json>>)
    ensures var pos := TargetPositions(relationships);
      && |pos| == |WithTarget(relationships)| <= |relationships|
      && (forall j :: 0 <= j < |pos| ==> pos[j] < |relationships| && WithTarget(relationships)[j] == relationships[pos[j]])
      && (forall j1, j2 :: 0 <= j1 < j2 < |pos| ==> pos[j1] < pos[j2])
      && (forall i :: 0 <= i < |relationships| && HasTarget(relationships[i]) ==> i in pos)
  {
    WithTargetMembers(relationships);
    TargetPositionsIndex(relationships);
    TargetPositionsIncreasing(relationships);
    TargetPositionsComplete(relationships);
  }

  /**
   * The published relationships are exactly the store's relationships that have a
   * target, in the store's order, each processed by ShapeRelationship.
   */
  lemma {:induction false} ShapeRelationshipsIsFilterMap(store: Store, relationships: seq<map<string, Json>>)
    requires ShapeRelationships(store, relationships).Ok?
    ensures |ShapeRelationships(store, relationships).value| == |WithTarget(relationships)| <= |relationships|
    ensures forall j :: 0 <= j < |WithTarget(relationships)| ==>
              ShapeRelationship(store, WithTarget(relationships)[j]) == Ok(Some(ShapeRelationships(store, relationships).value[j]))
    decreases |relationships|
  {
    WithTargetMembers(relationships);
    if relationships != [] {
      var last := |relationships| - 1;
      var prefix := relationships[..last];
      var x := relationships[last];
      assert relationships == prefix + [x];
      WithTargetSnoc(prefix, x);
      ShapeRelationshipsIsFilterMap(store, prefix);
    }
  }

  /** A relationship without `$targetId` (or with a null one) is dropped, not an error. */
  lemma UntargetedIsDropped(store: Store, relationship: map<string, Json>)
    requires "$targetId" !in relationship || relationship["$targetId"] == JNull
    ensures ShapeRelationship(store, relationship) == Ok(None)
  {
  }

  /**
   * A published relationship keeps every key but the bookkeeping ones, gains `external`,
   * which is true exactly when the target twin is external, and points at the target's
   * uri when external and at the target id otherwise.
   */
  lemma ShapedRelationshipFields(store: Store, relationship: map<string, Json>, shaped: map<string, Json>)
    requires ShapeRelationship(store, relationship) == Ok(Some(shaped))
    ensures HasTarget(relationship)
    ensures var target := TargetOf(relationship).value.value;
      && target in store
      && shaped.Keys == (relationship.Keys - RelationshipBookkeeping) + {"external", "$targetId"}
      && (forall k :: k in relationship && k !in RelationshipBookkeeping && k != "external" && k != "$targetId" ==>
            shaped[k] == relationship[k])
      && (shaped["external"] == JBool(true) <==> store[target].modelId == ExternalDTModel)
      && (shaped["external"] == JBool(false) <==> store[target].modelId != ExternalDTModel)
      && (store[target].modelId != ExternalDTModel ==> shaped["$targetId"] == JString(target))
      && (store[target].modelId == ExternalDTModel ==>
            UriOf(target, store[target]).Ok? && shaped["$targetId"] == JString(UriOf(target, store[target]).value))
  {
  }

  /** An external target without a `uri` makes the relationship fail. */
  lemma ExternalWithoutUriFails(store: Store, relationship: map<string, Json>, target: string)
    requires TargetOf(relationship) == Ok(Some(target))
    requires target in store && store[target].modelId == ExternalDTModel
    requires "uri" !in Properties(store[target])
    ensures ShapeRelationship(store, relationship) == Err(MissingUri(target))
  {
  }

  /** Handling yields null exactly when the event names no twin. */
  lemma HandleNullIffNoTwinId(e: CloudEvent, store: Store)
    ensures Handle(e, store) == Ok(None) <==> TwinIdFromEvent(e) == Ok(None)
  {
  }

  /** Every snapshot carries the twin id, the mapped event kind and the event time. */
  lemma SnapshotHeader(e: CloudEvent, store: Store, s: Snapshot)
    requires Handle(e, store) == Ok(Some(s))
    ensures TwinIdFromEvent(e) == Ok(Some(s.dtId))
    ensures s.eventType == MapEventType(e.eventType)
    ensures s.eventDateTime == e.time
  {
  }

  /** A twin delete with a subject always gives a bare snapshot: nothing is fetched. */
  lemma DeleteSnapshot(e: CloudEvent, store: Store, id: string)
    requires Classify(e.eventType) == TwinDelete && e.subject == Some(id)
    ensures Handle(e, store) == Ok(Some(Snapshot(id, "DELETE", e.time, None, None)))
  {
  }

  /**
   * For create, update and relationship events the snapshot holds the stored twin's
   * document without its bookkeeping keys, and the list of its targeted relationships.
   */
  lemma FullSnapshot(e: CloudEvent, store: Store, s: Snapshot)
    requires NeedsSnapshot(e.eventType)
    requires Handle(e, store) == Ok(Some(s))
    ensures s.dtId in store && s.properties.Some? && s.relationships.Some?
    ensures forall k :: k in s.properties.value <==> k in store[s.dtId].document && k !in TwinBookkeeping
    ensures forall k :: k in s.properties.value ==> s.properties.value[k] == store[s.dtId].document[k]
    ensures |s.relationships.value| == |WithTarget(store[s.dtId].relationships)|
    ensures forall j :: 0 <= j < |s.relationships.value| ==>
              ShapeRelationship(store, WithTarget(store[s.dtId].relationships)[j]) == Ok(Some(s.relationships.value[j]))
  {
    ShapeRelationshipsIsFilterMap(store, store[s.dtId].relationships);
  }
}
