/** What a resource advertises as actions, and which of several entries the document order makes count. */
module ActionListing {
  import opened Wrappers
  import opened Text
  import opened JsonModel

  type Object = map<string, Json>

  // ------------------------------------------------------------ what a resource advertises

  /** The entries of a dict; anything else has none. */
  function Entries(j: Option<Json>): Object {
    if j.Some? && j.value.Obj? then j.value.fields else map[]
  }

  function Get(o: Object, key: string): Option<Json> { if key in o then Some(o[key]) else None }

  predicate HasTarget(o: Object, full: string, target: Json) {
    full in o && o[full].Obj? && "target" in o[full].fields && o[full].fields["target"] == target && Truthy(target)
  }

  /** The actions of the resource's own Actions block, those under its Oem key aside. */
  function TopLevel(resource: Object): Object {
    var actions := Entries(Get(resource, "Actions"));
    if "Oem" in actions && actions["Oem"].Obj? then actions - {"Oem"} else actions
  }

  function UnderOem(resource: Object): Object { Entries(Get(Entries(Get(resource, "Actions")), "Oem")) }

  function UnderVendor(resource: Object, vendor: string): Object {
    Entries(Get(Entries(Get(Entries(Get(resource, "Oem")), vendor)), "Actions"))
  }

  /** The resource has an entry for this full type, and this is its target. */
  ghost predicate Advertised(resource: Object, full: string, target: Json) {
    || HasTarget(TopLevel(resource), full, target)
    || HasTarget(UnderOem(resource), full, target)
    || exists vendor: string :: HasTarget(UnderVendor(resource, vendor), full, target)
  }

  // ------------------------------------------------------------ the order of a document

  /** The keys of a dict in the order the document has them. */
  type Order = Object -> seq<string>

  ghost predicate Lists(order: Order) {
    forall o: Object, k: string :: k in order(o) <==> k in o
  }

  /** An action entry under its full type. */
  datatype Found = Found(full: string, entry: Json)

  function InOrder(o: Object, keys: seq<string>): seq<Found>
    requires forall k <- keys :: k in o
  {
    seq(|keys|, i requires 0 <= i < |keys| => assert keys[i] in keys; Found(keys[i], o[keys[i]]))
  }

  /** The entries of an Actions block: those of the Oem block inside it stand in its place. */
  function BlockEntries(order: Order, actions: Object, keys: seq<string>): seq<Found>
    requires Lists(order) && forall k <- keys :: k in actions
  {
    if keys == [] then []
    else
      var key := keys[|keys| - 1];
      BlockEntries(order, actions, keys[..|keys| - 1])
      + if key == "Oem" && actions[key].Obj?
        then InOrder(actions[key].fields, order(actions[key].fields)) else [Found(key, actions[key])]
  }

  /** The entries of the resource's own Actions block, in order. */
  function Listing(resource: Object, order: Order): seq<Found>
    requires Lists(order)
  {
    var actions := Entries(Get(resource, "Actions"));
    BlockEntries(order, actions, order(actions))
  }

  /** The entries of the Actions blocks of the vendors under Oem, in order. */
  function VendorEntries(resource: Object, order: Order, vendors: seq<string>): seq<Found>
    requires Lists(order)
  {
    if vendors == [] then []
    else
      var actions := UnderVendor(resource, vendors[|vendors| - 1]);
      VendorEntries(resource, order, vendors[..|vendors| - 1]) + InOrder(actions, order(actions))
  }

  function FullListing(resource: Object, order: Order): seq<Found>
    requires Lists(order)
  {
    Listing(resource, order) + VendorEntries(resource, order, order(Entries(Get(resource, "Oem"))))
  }

  /** The target of an entry, if it has one that counts. */
  function TargetOf(entry: Json): Option<Json> {
    if entry.Obj? && "target" in entry.fields && Truthy(entry.fields["target"])
    then Some(entry.fields["target"]) else None
  }

  /** The last entry of this full type that has a target decides. */
  function LastTarget(es: seq<Found>, full: string): Option<Json> {
    if es == [] then None
    else
      var e := es[|es| - 1];
      if e.full == full && TargetOf(e.entry).Some? then TargetOf(e.entry) else LastTarget(es[..|es| - 1], full)
  }

  /** The short name of a full type: what follows its last dot, if it has one. */
  function ShortName(full: string): Option<string> {
    var parts := Split(full, '.');
    if |parts| < 2 then None else Some(parts[|parts| - 1])
  }

  /** The last entry with this short name decides. */
  function LastNamed(es: seq<Found>, short: string): Option<Found> {
    if es == [] then None
    else if ShortName(es[|es| - 1].full) == Some(short) then Some(es[|es| - 1])
    else LastNamed(es[..|es| - 1], short)
  }

  // ------------------------------------------------------------ what the listings hold

  predicate Listed(resource: Object, full: string, entry: Json) {
    || (full in TopLevel(resource) && TopLevel(resource)[full] == entry)
    || (full in UnderOem(resource) && UnderOem(resource)[full] == entry)
  }

  lemma {:induction false} BlockHolds(resource: Object, order: Order, keys: seq<string>, e: Found)
    requires Lists(order) && (forall k <- keys :: k in Entries(Get(resource, "Actions")))
    requires e in BlockEntries(order, Entries(Get(resource, "Actions")), keys)
    ensures Listed(resource, e.full, e.entry)
  {
    var actions := Entries(Get(resource, "Actions"));
    var n := |keys| - 1;
    if e in BlockEntries(order, actions, keys[..n]) {
      BlockHolds(resource, order, keys[..n], e);
    } else if keys[n] == "Oem" && actions["Oem"].Obj? {
      assert UnderOem(resource) == actions["Oem"].fields;
    }
  }

  lemma {:induction false} VendorsHold(resource: Object, order: Order, vendors: seq<string>, e: Found)
    requires Lists(order) && e in VendorEntries(resource, order, vendors)
    ensures exists vendor: string ::
      e.full in UnderVendor(resource, vendor) && UnderVendor(resource, vendor)[e.full] == e.entry
  {
    var n := |vendors| - 1;
    if e in VendorEntries(resource, order, vendors[..n]) { VendorsHold(resource, order, vendors[..n], e); }
  }

  /** A listed entry with a target is advertised. */
  lemma ListingAdvertised(resource: Object, order: Order, e: Found, target: Json)
    requires Lists(order) && e in FullListing(resource, order) && TargetOf(e.entry) == Some(target)
    ensures Advertised(resource, e.full, target)
  {
    var actions := Entries(Get(resource, "Actions"));
    if e in Listing(resource, order) {
      BlockHolds(resource, order, order(actions), e);
    } else {
      VendorsHold(resource, order, order(Entries(Get(resource, "Oem"))), e);
    }
  }

  lemma {:induction false} LastTargetFrom(es: seq<Found>, full: string) returns (e: Found)
    requires LastTarget(es, full).Some?
    ensures e in es && e.full == full && TargetOf(e.entry) == LastTarget(es, full)
  {
    e := es[|es| - 1];
    if !(e.full == full && TargetOf(e.entry).Some?) { e := LastTargetFrom(es[..|es| - 1], full); }
  }

  lemma {:induction false} LastTargetFinds(es: seq<Found>, e: Found)
    requires e in es && TargetOf(e.entry).Some?
    ensures LastTarget(es, e.full).Some?
  {
    var n := |es| - 1;
    if es[n] != e {
      assert es == es[..n] + [es[n]];
      LastTargetFinds(es[..n], e);
    }
  }

  lemma {:induction false} LastNamedFrom(es: seq<Found>, short: string)
    ensures LastNamed(es, short).Some? ==>
      LastNamed(es, short).value in es && ShortName(LastNamed(es, short).value.full) == Some(short)
    ensures LastNamed(es, short).None? ==> forall e <- es :: ShortName(e.full) != Some(short)
  {
    if es != [] {
      var n := |es| - 1;
      assert es == es[..n] + [es[n]];
      LastNamedFrom(es[..n], short);
    }
  }

  lemma {:induction false} BlockHasKey(order: Order, actions: Object, keys: seq<string>, key: string)
    requires Lists(order) && (forall k <- keys :: k in actions) && key in keys
    ensures if key == "Oem" && actions[key].Obj?
      then forall full <- actions[key].fields ::
             Found(full, actions[key].fields[full]) in BlockEntries(order, actions, keys)
      else Found(key, actions[key]) in BlockEntries(order, actions, keys)
  {
    var n := |keys| - 1;
    if keys[n] != key {
      assert keys == keys[..n] + [keys[n]];
      BlockHasKey(order, actions, keys[..n], key);
    } else if key == "Oem" && actions[key].Obj? {
      forall full <- actions[key].fields
        ensures Found(full, actions[key].fields[full]) in BlockEntries(order, actions, keys)
      {
        InOrderHas(actions[key].fields, order(actions[key].fields), full);
      }
    }
  }

  lemma InOrderHas(o: Object, keys: seq<string>, key: string)
    requires (forall k <- keys :: k in o) && key in keys
    ensures Found(key, o[key]) in InOrder(o, keys)
  {
    var i :| 0 <= i < |keys| && keys[i] == key;
    assert InOrder(o, keys)[i] == Found(key, o[key]);
  }

  /** Every entry of the Actions block and of the Oem block inside it is in the listing. */
  lemma ListingHas(resource: Object, order: Order, full: string, entry: Json)
    requires Lists(order) && Listed(resource, full, entry)
    ensures Found(full, entry) in Listing(resource, order)
  {
    var actions := Entries(Get(resource, "Actions"));
    if full in TopLevel(resource) && TopLevel(resource)[full] == entry {
      BlockHasKey(order, actions, order(actions), full);
    } else {
      BlockHasKey(order, actions, order(actions), "Oem");
    }
  }

  lemma {:induction false} VendorsHave(resource: Object, order: Order, vendors: seq<string>, vendor: string,
                                       full: string)
    requires Lists(order) && vendor in vendors && full in UnderVendor(resource, vendor)
    ensures Found(full, UnderVendor(resource, vendor)[full]) in VendorEntries(resource, order, vendors)
  {
    var n := |vendors| - 1;
    if vendors[n] != vendor {
      assert vendors == vendors[..n] + [vendors[n]];
      VendorsHave(resource, order, vendors[..n], vendor, full);
    } else {
      InOrderHas(UnderVendor(resource, vendor), order(UnderVendor(resource, vendor)), full);
    }
  }

  /** A full type has a last target iff it is advertised with one. */
  lemma LastTargetIff(resource: Object, order: Order, full: string)
    requires Lists(order)
    ensures LastTarget(FullListing(resource, order), full).Some? <==> exists t :: Advertised(resource, full, t)
    ensures LastTarget(FullListing(resource, order), full).Some? ==>
      Advertised(resource, full, LastTarget(FullListing(resource, order), full).value)
  {
    var es := FullListing(resource, order);
    if LastTarget(es, full).Some? {
      var e := LastTargetFrom(es, full);
      ListingAdvertised(resource, order, e, LastTarget(es, full).value);
    }
    if t :| Advertised(resource, full, t) {
      AdvertisedIsListed(resource, order, full, t);
    }
  }

  lemma AdvertisedIsListed(resource: Object, order: Order, full: string, t: Json)
    requires Lists(order) && Advertised(resource, full, t)
    ensures LastTarget(FullListing(resource, order), full).Some?
  {
    var es := FullListing(resource, order);
    if HasTarget(TopLevel(resource), full, t) {
      ListingHas(resource, order, full, TopLevel(resource)[full]);
      LastTargetFinds(es, Found(full, TopLevel(resource)[full]));
    } else if HasTarget(UnderOem(resource), full, t) {
      ListingHas(resource, order, full, UnderOem(resource)[full]);
      LastTargetFinds(es, Found(full, UnderOem(resource)[full]));
    } else {
      var vendor: string :| HasTarget(UnderVendor(resource, vendor), full, t);
      VendorsHave(resource, order, order(Entries(Get(resource, "Oem"))), vendor, full);
      LastTargetFinds(es, Found(full, UnderVendor(resource, vendor)[full]));
    }
  }
}
