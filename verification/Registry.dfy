/** The device registry of `registry.rs`: a map of devices, their documents, and two indexes. */
module Registry {
  import opened Ints
  import opened Wrappers
  import opened Results

  type Did = string
  type Owner = nat

  datatype Document = Document(id: Did, content: seq<u8>)

  datatype Status = Active | Suspended | Deactivated | Pending

  datatype Device = Device(
    did: Did, owner: Owner, docHash: Hash, status: Status, kind: string,
    registeredAt: u64, lastSeen: u64, reputation: nat, contributions: u64, earnings: u128)

  datatype Error = InvalidDocument | AlreadyRegistered(did: Did) | NotFound(did: Did) | Unauthorized

  // What this model does not compute: whether a document is valid, and its hash.
  datatype Rules = Rules(valid: Document -> bool, hash: Document -> Hash)

  datatype Records = Records(
    devices: map<Did, Device>, documents: map<Did, Document>,
    byOwner: map<Owner, seq<Did>>, byKind: map<string, seq<Did>>)

  const NO_RECORDS: Records := Records(map[], map[], map[], map[])

  // ---------- Indexes ----------

  function Listed<K>(index: map<K, seq<Did>>, key: K): seq<Did> {
    if key in index then index[key] else []
  }

  function Pushed<K>(index: map<K, seq<Did>>, key: K, did: Did): map<K, seq<Did>> {
    index[key := Listed(index, key) + [did]]
  }

  function Without(dids: seq<Did>, did: Did): (rest: seq<Did>)
    ensures forall d :: d in rest <==> d in dids && d != did
  {
    if dids == [] then []
    else
      var rest := Without(dids[1..], did);
      assert dids == [dids[0]] + dids[1..];
      if dids[0] == did then rest else [dids[0]] + rest
  }

  predicate Distinct(dids: seq<Did>) {
    forall i, j :: 0 <= i < j < |dids| ==> dids[i] != dids[j]
  }

  function Dropped<K>(index: map<K, seq<Did>>, key: K, did: Did): map<K, seq<Did>> {
    if key in index then index[key := Without(index[key], did)] else index
  }

  // ---------- Operations ----------

  type Changed = (Records, Option<Error>)

  // Also the error of the operations that only an owner may carry out.
  function Refusal(r: Records, did: Did, sender: Owner): Option<Error> {
    if did !in r.devices then Some(NotFound(did))
    else if r.devices[did].owner != sender then Some(Unauthorized)
    else None
  }

  function NewDevice(rules: Rules, owner: Owner, doc: Document, kind: string, now: u64): Device {
    Device(doc.id, owner, rules.hash(doc), Pending, kind, now, now, 500, 0, 0)
  }

  function Register(rules: Rules, r: Records, owner: Owner, doc: Document, kind: string, now: u64): Changed {
    if !rules.valid(doc) then (r, Some(InvalidDocument))
    else if doc.id in r.devices then (r, Some(AlreadyRegistered(doc.id)))
    else
      (Records(r.devices[doc.id := NewDevice(rules, owner, doc, kind, now)], r.documents[doc.id := doc],
               Pushed(r.byOwner, owner, doc.id), Pushed(r.byKind, kind, doc.id)), None)
  }

  function SetStatus(r: Records, did: Did, sender: Owner, status: Status): Changed {
    if Refusal(r, did, sender).Some? then (r, Refusal(r, did, sender))
    else (r.(devices := r.devices[did := r.devices[did].(status := status)]), None)
  }

  function Deregister(r: Records, did: Did, sender: Owner): Changed {
    if Refusal(r, did, sender).Some? then (r, Refusal(r, did, sender))
    else
      var device := r.devices[did];
      (Records(r.devices - {did}, r.documents - {did},
               Dropped(r.byOwner, device.owner, did), Dropped(r.byKind, device.kind, did)), None)
  }

  // The new document need not carry the device's own identifier.
  function UpdateDocument(rules: Rules, r: Records, did: Did, doc: Document, sender: Owner): Changed {
    if !rules.valid(doc) then (r, Some(InvalidDocument))
    else if Refusal(r, did, sender).Some? then (r, Refusal(r, did, sender))
    else
      (r.(devices := r.devices[did := r.devices[did].(docHash := rules.hash(doc))],
          documents := r.documents[did := doc]), None)
  }

  // ---------- The invariant ----------

  // Under every key the index lists exactly the devices that have this key, once each.
  ghost predicate Indexed<K(!new)>(index: map<K, seq<Did>>, keyOf: map<Did, K>) {
    forall k :: Distinct(Listed(index, k)) && forall d :: d in Listed(index, k) <==> d in keyOf && keyOf[d] == k
  }

  function Owners(devices: map<Did, Device>): map<Did, Owner> {
    map d | d in devices :: devices[d].owner
  }

  function Kinds(devices: map<Did, Device>): map<Did, string> {
    map d | d in devices :: devices[d].kind
  }

  // Devices and documents share their keys, and hashes match the documents.
  predicate Documented(rules: Rules, r: Records) {
    r.devices.Keys == r.documents.Keys
    && forall d :: d in r.devices ==> r.devices[d].did == d && r.devices[d].docHash == rules.hash(r.documents[d])
  }

  ghost predicate Inv(rules: Rules, r: Records) {
    Documented(rules, r) && Indexed(r.byOwner, Owners(r.devices)) && Indexed(r.byKind, Kinds(r.devices))
  }

  datatype Event =
    | DoRegister(owner: Owner, doc: Document, kind: string, now: u64)
    | DoSetStatus(did: Did, sender: Owner, status: Status)
    | DoDeregister(did: Did, sender: Owner)
    | DoUpdate(did: Did, doc: Document, sender: Owner)

  function After(rules: Rules, r: Records, e: Event): Records {
    match e
    case DoRegister(owner, doc, kind, now) => Register(rules, r, owner, doc, kind, now).0
    case DoSetStatus(did, sender, status) => SetStatus(r, did, sender, status).0
    case DoDeregister(did, sender) => Deregister(r, did, sender).0
    case DoUpdate(did, doc, sender) => UpdateDocument(rules, r, did, doc, sender).0
  }

  function Run(rules: Rules, r: Records, events: seq<Event>): Records
    decreases |events|
  {
    if events == [] then r else Run(rules, After(rules, r, events[0]), events[1..])
  }

  lemma PushKeepsIndexed<K(!new)>(index: map<K, seq<Did>>, keyOf: map<Did, K>, key: K, did: Did)
    requires Indexed(index, keyOf) && did !in keyOf
    ensures Indexed(Pushed(index, key, did), keyOf[did := key])
  {
    var index1, keyOf1 := Pushed(index, key, did), keyOf[did := key];
    forall k: K
      ensures Distinct(Listed(index1, k)) && forall d :: d in Listed(index1, k) <==> d in keyOf1 && keyOf1[d] == k
    {
      assert did !in Listed(index, k);
      assert Listed(index1, k) == if k == key then Listed(index, k) + [did] else Listed(index, k);
    }
  }

  lemma {:induction false} WithoutIsDistinct(dids: seq<Did>, did: Did)
    requires Distinct(dids)
    ensures Distinct(Without(dids, did))
    decreases |dids|
  {
    if dids != [] {
      var rest := Without(dids[1..], did);
      WithoutIsDistinct(dids[1..], did);
      assert dids[0] !in rest;
    }
  }

  lemma DropKeepsIndexed<K(!new)>(index: map<K, seq<Did>>, keyOf: map<Did, K>, did: Did)
    requires Indexed(index, keyOf) && did in keyOf
    ensures Indexed(Dropped(index, keyOf[did], did), keyOf - {did})
  {
    var index1, keyOf1 := Dropped(index, keyOf[did], did), keyOf - {did};
    forall k: K
      ensures Distinct(Listed(index1, k)) && forall d :: d in Listed(index1, k) <==> d in keyOf1 && keyOf1[d] == k
    {
      assert Distinct(Listed(index, k));
      WithoutIsDistinct(Listed(index, k), did);
      assert Listed(index1, k) == if k == keyOf[did] then Without(Listed(index, k), did) else Listed(index, k);
    }
  }

  lemma RegisterKeepsDocumented(rules: Rules, r: Records, owner: Owner, doc: Document, kind: string, now: u64)
    requires Documented(rules, r)
    ensures Documented(rules, Register(rules, r, owner, doc, kind, now).0)
  {
    hide Pushed;
  }

  lemma RegisterKeepsInv(rules: Rules, r: Records, owner: Owner, doc: Document, kind: string, now: u64)
    requires Inv(rules, r)
    ensures Inv(rules, Register(rules, r, owner, doc, kind, now).0)
  {
    hide Indexed, Documented, Pushed;
    var r1 := Register(rules, r, owner, doc, kind, now).0;
    RegisterKeepsDocumented(rules, r, owner, doc, kind, now);
    if rules.valid(doc) && doc.id !in r.devices {
      assert Owners(r1.devices) == Owners(r.devices)[doc.id := owner];
      assert Kinds(r1.devices) == Kinds(r.devices)[doc.id := kind];
      PushKeepsIndexed(r.byOwner, Owners(r.devices), owner, doc.id);
      PushKeepsIndexed(r.byKind, Kinds(r.devices), kind, doc.id);
    }
  }

  lemma SetStatusKeepsInv(rules: Rules, r: Records, did: Did, sender: Owner, status: Status)
    requires Inv(rules, r)
    ensures Inv(rules, SetStatus(r, did, sender, status).0)
  {
    hide Indexed;
    var r1 := SetStatus(r, did, sender, status).0;
    assert Owners(r1.devices) == Owners(r.devices) && Kinds(r1.devices) == Kinds(r.devices);
  }

  lemma UpdateKeepsDocumented(rules: Rules, r: Records, did: Did, doc: Document, sender: Owner)
    requires Documented(rules, r)
    ensures Documented(rules, UpdateDocument(rules, r, did, doc, sender).0)
  {
  }

  lemma UpdateKeepsInv(rules: Rules, r: Records, did: Did, doc: Document, sender: Owner)
    requires Inv(rules, r)
    ensures Inv(rules, UpdateDocument(rules, r, did, doc, sender).0)
  {
    hide Indexed, Documented, UpdateDocument, Owners, Kinds;
    UpdateKeepsDocumented(rules, r, did, doc, sender);
    UpdateKeepsKeys(rules, r, did, doc, sender);
  }

  lemma UpdateKeepsKeys(rules: Rules, r: Records, did: Did, doc: Document, sender: Owner)
    ensures var r1 := UpdateDocument(rules, r, did, doc, sender).0;
            && r1.byOwner == r.byOwner && r1.byKind == r.byKind
            && Owners(r1.devices) == Owners(r.devices) && Kinds(r1.devices) == Kinds(r.devices)
  {
  }

  lemma DeregisterKeepsInv(rules: Rules, r: Records, did: Did, sender: Owner)
    requires Inv(rules, r)
    ensures Inv(rules, Deregister(r, did, sender).0)
  {
    hide Indexed;
    var r1 := Deregister(r, did, sender).0;
    if Refusal(r, did, sender) == None {
      assert Owners(r1.devices) == Owners(r.devices) - {did} && Kinds(r1.devices) == Kinds(r.devices) - {did};
      DropKeepsIndexed(r.byOwner, Owners(r.devices), did);
      DropKeepsIndexed(r.byKind, Kinds(r.devices), did);
    }
  }

  lemma EventKeepsInv(rules: Rules, r: Records, e: Event)
    requires Inv(rules, r)
    ensures Inv(rules, After(rules, r, e))
  {
    hide Inv;
    match e
    case DoRegister(owner, doc, kind, now) => RegisterKeepsInv(rules, r, owner, doc, kind, now);
    case DoSetStatus(did, sender, status) => SetStatusKeepsInv(rules, r, did, sender, status);
    case DoDeregister(did, sender) => DeregisterKeepsInv(rules, r, did, sender);
    case DoUpdate(did, doc, sender) => UpdateKeepsInv(rules, r, did, doc, sender);
  }

  lemma {:induction false} EveryRunKeepsInv(rules: Rules, r: Records, events: seq<Event>)
    requires Inv(rules, r)
    ensures Inv(rules, Run(rules, r, events))
    decreases |events|
  {
    hide Inv;
    if events != [] {
      var e := events[0];
      EventKeepsInv(rules, r, e);
      EveryRunKeepsInv(rules, After(rules, r, e), events[1..]);
    }
  }

  lemma EveryRunIsIndexed(rules: Rules, events: seq<Event>)
    ensures Inv(rules, Run(rules, NO_RECORDS, events))
  {
    assert Inv(rules, NO_RECORDS);
    EveryRunKeepsInv(rules, NO_RECORDS, events);
  }

  // ---------- Lookups ----------

  // The devices of a list of identifiers; those that are not registered are left out.
  function DevicesOf(devices: map<Did, Device>, dids: seq<Did>): seq<Device> {
    if dids == [] then []
    else if dids[0] in devices then [devices[dids[0]]] + DevicesOf(devices, dids[1..])
    else DevicesOf(devices, dids[1..])
  }

  // Every device that passes is listed, no other is, and none twice.
  ghost predicate IsFilter(devices: map<Did, Device>, found: seq<Device>, passes: Device -> bool) {
    && (forall d :: d in devices && passes(devices[d]) ==> devices[d] in found)
    && (forall x :: x in found ==> passes(x) && x.did in devices && devices[x.did] == x)
    && (forall i, j :: 0 <= i < j < |found| ==> found[i].did != found[j].did)
  }

  lemma {:induction false} DevicesInOrder(devices: map<Did, Device>, dids: seq<Did>)
    requires forall d :: d in dids ==> d in devices
    ensures var found := DevicesOf(devices, dids);
            |found| == |dids| && forall i :: 0 <= i < |dids| ==> found[i] == devices[dids[i]]
    decreases |dids|
  {
    if dids != [] {
      assert forall d :: d in dids[1..] ==> d in dids;
      DevicesInOrder(devices, dids[1..]);
    }
  }

  // An indexed lookup finds exactly the devices with the key, each once.
  lemma LookupIsFilter<K(!new)>(devices: map<Did, Device>, index: map<K, seq<Did>>, keyOf: map<Did, K>, key: K,
                                passes: Device -> bool)
    requires Indexed(index, keyOf) && keyOf.Keys == devices.Keys
    requires forall d :: d in devices ==> devices[d].did == d && (passes(devices[d]) <==> keyOf[d] == key)
    ensures IsFilter(devices, DevicesOf(devices, Listed(index, key)), passes)
  {
    hide Indexed, DevicesOf;
    var dids := Listed(index, key);
    var found := DevicesOf(devices, dids);
    ListedUnder(index, keyOf, key);
    DevicesInOrder(devices, dids);
    forall d | d in devices && passes(devices[d]) ensures devices[d] in found {
      var i :| 0 <= i < |dids| && dids[i] == d;
      assert found[i] == devices[d];
    }
    forall x | x in found ensures passes(x) && x.did in devices && devices[x.did] == x {
      var i :| 0 <= i < |found| && found[i] == x;
      assert dids[i] in dids;
    }
  }

  lemma ListedUnder<K(!new)>(index: map<K, seq<Did>>, keyOf: map<Did, K>, key: K)
    requires Indexed(index, keyOf)
    ensures Distinct(Listed(index, key)) && forall d :: d in Listed(index, key) <==> d in keyOf && keyOf[d] == key
  {
  }

  lemma OwnerLookupIsFilter(rules: Rules, r: Records, owner: Owner)
    requires Inv(rules, r)
    ensures IsFilter(r.devices, DevicesOf(r.devices, Listed(r.byOwner, owner)), (x: Device) => x.owner == owner)
  {
    hide Indexed, IsFilter;
    LookupIsFilter(r.devices, r.byOwner, Owners(r.devices), owner, (x: Device) => x.owner == owner);
  }

  lemma KindLookupIsFilter(rules: Rules, r: Records, kind: string)
    requires Inv(rules, r)
    ensures IsFilter(r.devices, DevicesOf(r.devices, Listed(r.byKind, kind)), (x: Device) => x.kind == kind)
  {
    hide Indexed, IsFilter;
    LookupIsFilter(r.devices, r.byKind, Kinds(r.devices), kind, (x: Device) => x.kind == kind);
  }

  // ---------- Whose document it is ----------

  // An update keeps the records sound, and the device's document carries its identifier if and only if the
  // new document does, which nothing checks.
  lemma DocumentOfAnother(rules: Rules, r: Records, did: Did, doc: Document)
    requires Inv(rules, r) && did in r.devices && rules.valid(doc)
    ensures var r1 := UpdateDocument(rules, r, did, doc, r.devices[did].owner).0;
            Inv(rules, r1) && (r1.documents[did].id == did <==> doc.id == did)
  {
    hide Inv;
    UpdateKeepsInv(rules, r, did, doc, r.devices[did].owner);
  }

  // In the records r the event replaces or removes the document of this device.
  predicate Touches(rules: Rules, r: Records, e: Event, did: Did) {
    match e
    case DoUpdate(d, doc, sender) => d == did && UpdateDocument(rules, r, d, doc, sender).1 == None
    case DoDeregister(d, sender) => d == did && Deregister(r, d, sender).1 == None
    case _ => false
  }

  function Before(rules: Rules, events: seq<Event>, k: nat): Records
    requires k <= |events|
  {
    Run(rules, NO_RECORDS, events[..k])
  }

  // The k-th event was the last to touch the device's document, and replaced it.
  predicate LastUpdate(rules: Rules, events: seq<Event>, k: nat, did: Did) {
    && k < |events| && events[k].DoUpdate? && Touches(rules, Before(rules, events, k), events[k], did)
    && forall j :: k < j < |events| ==> !Touches(rules, Before(rules, events, j), events[j], did)
  }

  ghost predicate LastUpdatesCarryKeys(rules: Rules, events: seq<Event>) {
    forall did, k: nat :: LastUpdate(rules, events, k, did) ==> events[k].doc.id == did
  }

  predicate CarryKeys(documents: map<Did, Document>) {
    forall did :: did in documents ==> documents[did].id == did
  }

  // After a run every document carries the identifier it is stored under if and only if, for every device
  // whose document was updated since it was registered, the last update carried its identifier.
  lemma DocumentsCarryKeysIff(rules: Rules, events: seq<Event>)
    ensures CarryKeys(Run(rules, NO_RECORDS, events).documents) <==> LastUpdatesCarryKeys(rules, events)
  {
    hide Touches, Run;
    var documents := Run(rules, NO_RECORDS, events).documents;
    if CarryKeys(documents) {
      forall did, k: nat | LastUpdate(rules, events, k, did) ensures events[k].doc.id == did {
        DocumentFromRun(rules, events, did);
        assert documents[did].id == did;
      }
    }
    if LastUpdatesCarryKeys(rules, events) {
      forall did | did in documents ensures documents[did].id == did {
        DocumentFromRun(rules, events, did);
      }
    }
  }

  // The device's document is that of the last update, or the one it was registered with, which carries its
  // identifier.
  ghost predicate DocumentIs(rules: Rules, events: seq<Event>, documents: map<Did, Document>, did: Did) {
    && (forall k: nat :: LastUpdate(rules, events, k, did) ==>
                           k < |events| && events[k].DoUpdate? && did in documents && documents[did] == events[k].doc)
    && (did in documents ==> documents[did].id == did || exists k: nat :: LastUpdate(rules, events, k, did))
  }

  lemma {:induction false} DocumentFromRun(rules: Rules, events: seq<Event>, did: Did)
    ensures DocumentIs(rules, events, Run(rules, NO_RECORDS, events).documents, did)
    decreases |events|
  {
    hide LastUpdate, After, Run, Touches;
    if events == [] {
      assert forall k: nat :: !LastUpdate(rules, events, k, did) by { NoUpdateYet(rules, did); }
      assert Run(rules, NO_RECORDS, events) == NO_RECORDS by { RunOfNone(rules); }
    } else {
      var front, e := events[..|events| - 1], events[|events| - 1];
      assert events == front + [e];
      DocumentFromRun(rules, front, did);
      RunOneMore(rules, NO_RECORDS, front, e);
      EveryRunIsIndexed(rules, front);
      var r := Run(rules, NO_RECORDS, front);
      assert r.devices.Keys == r.documents.Keys;
      DocumentAfter(rules, r, e, did);
      LastUpdateOneMore(rules, front, e, |front|, did);
      forall k: nat | LastUpdate(rules, events, k, did) && k != |front|
        ensures LastUpdate(rules, front, k, did) && !Touches(rules, r, e, did)
      {
        LastUpdateOneMore(rules, front, e, k, did);
      }
      if k: nat :| LastUpdate(rules, front, k, did) {
        LastUpdateOneMore(rules, front, e, k, did);
      }
    }
  }

  lemma DocumentAfter(rules: Rules, r: Records, e: Event, did: Did)
    requires r.devices.Keys == r.documents.Keys
    ensures var before, after := r.documents, After(rules, r, e).documents;
            if Touches(rules, r, e, did) then
              if e.DoUpdate? then did in after && after[did] == e.doc else did !in after
            else
              && (did in before ==> did in after && after[did] == before[did])
              && (did in after && did !in before ==> after[did].id == did)
  {
  }

  lemma NoUpdateYet(rules: Rules, did: Did)
    ensures forall k: nat :: !LastUpdate(rules, [], k, did)
  {
  }

  lemma RunOfNone(rules: Rules)
    ensures Run(rules, NO_RECORDS, []) == NO_RECORDS
  {
  }

  lemma {:induction false} RunOneMore(rules: Rules, r: Records, events: seq<Event>, e: Event)
    ensures Run(rules, r, events + [e]) == After(rules, Run(rules, r, events), e)
    decreases |events|
  {
    hide After;
    if events == [] {
      assert Run(rules, r, [e]) == Run(rules, After(rules, r, e), []);
    } else {
      assert (events + [e])[1..] == events[1..] + [e];
      RunOneMore(rules, After(rules, r, events[0]), events[1..], e);
    }
  }

  lemma LastUpdateOneMore(rules: Rules, front: seq<Event>, e: Event, k: nat, did: Did)
    ensures LastUpdate(rules, front + [e], k, did) <==>
            var touched := Touches(rules, Run(rules, NO_RECORDS, front), e, did);
            if k == |front| then e.DoUpdate? && touched else LastUpdate(rules, front, k, did) && !touched
  {
    hide Touches, Run;
    var events := front + [e];
    forall j | 0 <= j <= |front| ensures events[..j] == front[..j] {
    }
    assert front[..|front|] == front;
    assert events[|front|] == e && forall j :: 0 <= j < |front| ==> events[j] == front[j];
    assert Touches(rules, Before(rules, events, |front|), events[|front|], did) <==>
           Touches(rules, Run(rules, NO_RECORDS, front), e, did);
    forall j | 0 <= j < |front|
      ensures Touches(rules, Before(rules, events, j), events[j], did) <==>
              Touches(rules, Before(rules, front, j), front[j], did)
    {
    }
  }

  // Such a run: the owner of device "a" replaces its document by that of "b".
  lemma DocumentOfAnotherDevice()
    ensures var rules := Rules((d: Document) => true, (d: Document) => 0);
            var events := [DoRegister(1, Document("a", []), "sensor", 0), DoUpdate("a", Document("b", []), 1)];
            Run(rules, NO_RECORDS, events).documents == map["a" := Document("b", [])]
  {
    var rules := Rules((d: Document) => true, (d: Document) => 0);
    var first, second := DoRegister(1, Document("a", []), "sensor", 0), DoUpdate("a", Document("b", []), 1);
    assert [first] + [second] == [first, second] && [] + [first] == [first];
    RunOneMore(rules, NO_RECORDS, [first], second);
    RunOneMore(rules, NO_RECORDS, [], first);
  }

  // ---------- The registry object ----------

  class DeviceRegistry {
    const rules: Rules
    var devices: map<Did, Device>
    var documents: map<Did, Document>
    var byOwner: map<Owner, seq<Did>>
    var byKind: map<string, seq<Did>>

    ghost function View(): Records
      reads this
    {
      Records(devices, documents, byOwner, byKind)
    }

    ghost predicate Valid()
      reads this
    {
      Inv(rules, View())
    }

    constructor (rules: Rules)
      ensures Valid() && View() == NO_RECORDS && this.rules == rules
    {
      this.rules := rules;
      devices, documents, byOwner, byKind := map[], map[], map[], map[];
    }

    method RegisterDevice(owner: Owner, doc: Document, kind: string, now: u64) returns (r: Result<Device, Error>)
      requires Valid()
      modifies this
      ensures Valid()
      ensures var (after, error) := Register(rules, old(View()), owner, doc, kind, now);
              View() == after && match error
                                 case Some(e) => r == Err(e)
                                 case None => r == Ok(NewDevice(rules, owner, doc, kind, now))
    {
      hide Inv;
      RegisterKeepsInv(rules, View(), owner, doc, kind, now);
      if !rules.valid(doc) {
        return Err(InvalidDocument);
      }
      if doc.id in devices {
        return Err(AlreadyRegistered(doc.id));
      }
      var device := NewDevice(rules, owner, doc, kind, now);
      devices := devices[doc.id := device];
      documents := documents[doc.id := doc];
      byOwner := byOwner[owner := Listed(byOwner, owner) + [doc.id]];
      byKind := byKind[kind := Listed(byKind, kind) + [doc.id]];
      return Ok(device);
    }

    method ChangeStatus(did: Did, sender: Owner, status: Status) returns (error: Option<Error>)
      requires Valid()
      modifies `devices
      ensures Valid() && (View(), error) == SetStatus(old(View()), did, sender, status)
    {
      hide Inv;
      SetStatusKeepsInv(rules, View(), did, sender, status);
      if did !in devices {
        return Some(NotFound(did));
      }
      if devices[did].owner != sender {
        return Some(Unauthorized);
      }
      devices := devices[did := devices[did].(status := status)];
      return None;
    }

    method ActivateDevice(did: Did, sender: Owner) returns (error: Option<Error>)
      requires Valid()
      modifies `devices
      ensures Valid() && (View(), error) == SetStatus(old(View()), did, sender, Active)
    {
      error := ChangeStatus(did, sender, Active);
    }

    method SuspendDevice(did: Did, sender: Owner) returns (error: Option<Error>)
      requires Valid()
      modifies `devices
      ensures Valid() && (View(), error) == SetStatus(old(View()), did, sender, Suspended)
    {
      error := ChangeStatus(did, sender, Suspended);
    }

    method DeregisterDevice(did: Did, sender: Owner) returns (error: Option<Error>)
      requires Valid()
      modifies this
      ensures Valid() && (View(), error) == Deregister(old(View()), did, sender)
    {
      hide Inv;
      DeregisterKeepsInv(rules, View(), did, sender);
      if did !in devices {
        return Some(NotFound(did));
      }
      var device := devices[did];
      if device.owner != sender {
        return Some(Unauthorized);
      }
      if device.owner in byOwner {
        var rest := Retain(byOwner[device.owner], did);
        byOwner := byOwner[device.owner := rest];
      }
      if device.kind in byKind {
        var rest := Retain(byKind[device.kind], did);
        byKind := byKind[device.kind := rest];
      }
      devices := devices - {did};
      documents := documents - {did};
      return None;
    }

    static method Retain(dids: seq<Did>, did: Did) returns (rest: seq<Did>)
      ensures rest == Without(dids, did)
    {
      rest := [];
      for i := 0 to |dids|
        invariant Without(dids, did) == rest + Without(dids[i..], did)
      {
        assert dids[i..][1..] == dids[i + 1..];
        if dids[i] != did {
          rest := rest + [dids[i]];
        }
      }
    }

    method ReplaceDocument(did: Did, doc: Document, sender: Owner) returns (error: Option<Error>)
      requires Valid()
      modifies `devices, `documents
      ensures Valid() && (View(), error) == UpdateDocument(rules, old(View()), did, doc, sender)
    {
      hide Inv;
      UpdateKeepsInv(rules, View(), did, doc, sender);
      if !rules.valid(doc) {
        return Some(InvalidDocument);
      }
      if did !in devices {
        return Some(NotFound(did));
      }
      if devices[did].owner != sender {
        return Some(Unauthorized);
      }
      devices := devices[did := devices[did].(docHash := rules.hash(doc))];
      documents := documents[did := doc];
      return None;
    }

    method GetDevicesByOwner(owner: Owner) returns (found: seq<Device>)
      requires Valid()
      ensures found == DevicesOf(devices, Listed(byOwner, owner))
      ensures IsFilter(devices, found, (x: Device) => x.owner == owner)
    {
      hide Inv, IsFilter;
      OwnerLookupIsFilter(rules, View(), owner);
      found := Collect(Listed(byOwner, owner));
    }

    method GetDevicesByType(kind: string) returns (found: seq<Device>)
      requires Valid()
      ensures found == DevicesOf(devices, Listed(byKind, kind))
      ensures IsFilter(devices, found, (x: Device) => x.kind == kind)
    {
      hide Inv, IsFilter;
      KindLookupIsFilter(rules, View(), kind);
      found := Collect(Listed(byKind, kind));
    }

    method Collect(dids: seq<Did>) returns (found: seq<Device>)
      ensures found == DevicesOf(devices, dids)
    {
      found := [];
      for i := 0 to |dids|
        invariant DevicesOf(devices, dids) == found + DevicesOf(devices, dids[i..])
      {
        assert dids[i..][1..] == dids[i + 1..];
        if dids[i] in devices {
          found := found + [devices[dids[i]]];
        }
      }
    }
  }
}
