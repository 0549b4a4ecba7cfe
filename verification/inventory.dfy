/** The admin-only inventory handlers: create with the next id, merge-update
    and delete by the application's integer id. Every one runs behind the admin
    gate, whose 401/403 comes before any check of the body. */
module Inventory {
  import opened Common
  import opened Seqs
  import opened Store
  import opened Auth
  import Catalog

  /** The JSON body: strings absent or not, numbers absent (`undefined`) or not. */
  datatype MedicineBody = MedicineBody(
    name: Option<string>, price: Option<int>, category: Option<string>,
    stock: Option<int>, image: Option<string>)

  datatype Reply = Reply(db: Db, status: Status, item: Option<Medicine>)

  /** The largest id in the collection, 0 when it is empty. */
  function MaxId(meds: seq<Medicine>): (r: int)
    ensures forall m | m in meds :: m.id <= r
    ensures |meds| > 0 ==> HasMedicine(meds, r)
    ensures |meds| == 0 ==> r == 0
  {
    if |meds| == 0 then 0
    else if |meds| == 1 then meds[0].id
    else
      var rest := MaxId(meds[1..]);
      assert forall m | m in meds :: m == meds[0] || m in meds[1..];
      if meds[0].id >= rest then meds[0].id else rest
  }

  predicate CreateComplete(b: MedicineBody) {
    Truthy(b.name) && b.price.Some? && Truthy(b.category) && b.stock.Some?
  }

  /** POST /api/medicines: 400 unless name and category are non-empty and
      price and stock are given; otherwise the entry gets the largest id plus
      one (1 in an empty collection) and the pill picture when none is given. */
  function CreateMedicine(db: Db, header: Option<string>, verify: string -> Option<Principal>, body: MedicineBody): (r: Reply)
    ensures AdminGate(header, verify).Failure? ==> r == Reply(db, AdminGate(header, verify).status, None)
    ensures AdminGate(header, verify).Success? ==> (r.status == BadRequest <==> !CreateComplete(body))
    ensures AdminGate(header, verify).Success? && CreateComplete(body) ==> r.status == Created
    ensures r.status != Created ==> r.db == db && r.item.None?
    ensures r.status == Created ==>
              && r.item.Some?
              && r.db == db.(medicines := db.medicines + [r.item.value])
              && r.item.value.id == MaxId(db.medicines) + 1
              && (forall m | m in db.medicines :: m.id < r.item.value.id)
              && (|db.medicines| == 0 ==> r.item.value.id == 1)
              && Some(r.item.value.name) == body.name && Some(r.item.value.category) == body.category
              && Some(r.item.value.price) == body.price && Some(r.item.value.stock) == body.stock
              && r.item.value.image == (if Truthy(body.image) then body.image.value else Catalog.Pill)
    ensures UniqueIds(db.medicines) ==> UniqueIds(r.db.medicines)
  {
    match AdminGate(header, verify)
    case Failure(s) => Reply(db, s, None)
    case Success(_) =>
      if !CreateComplete(body) then Reply(db, BadRequest, None)
      else
        var image := if Truthy(body.image) then body.image.value else Catalog.Pill;
        var m := Medicine(MaxId(db.medicines) + 1, body.name.value, body.price.value,
                          body.category.value, body.stock.value, image);
        assert forall i | 0 <= i < |db.medicines| :: db.medicines[i] in db.medicines;
        Reply(db.(medicines := db.medicines + [m]), Created, Some(m))
  }

  /** The fields `PUT` overwrites: name, category and image only when truthy,
      price and stock whenever given; the id never changes. */
  function Merge(m: Medicine, body: MedicineBody): (r: Medicine)
    ensures r.id == m.id
    ensures r.name == if Truthy(body.name) then body.name.value else m.name
    ensures r.price == if body.price.Some? then body.price.value else m.price
    ensures r.category == if Truthy(body.category) then body.category.value else m.category
    ensures r.stock == if body.stock.Some? then body.stock.value else m.stock
    ensures r.image == if Truthy(body.image) then body.image.value else m.image
  {
    var m1 := if Truthy(body.name) then m.(name := body.name.value) else m;
    var m2 := if body.price.Some? then m1.(price := body.price.value) else m1;
    var m3 := if Truthy(body.category) then m2.(category := body.category.value) else m2;
    var m4 := if body.stock.Some? then m3.(stock := body.stock.value) else m3;
    if Truthy(body.image) then m4.(image := body.image.value) else m4
  }

  /** A body that supplies nothing changes nothing. */
  lemma MergeNothing(m: Medicine)
    ensures Merge(m, MedicineBody(None, None, None, None, None)) == m
  {
  }

  /** Applying the same update twice is applying it once. */
  lemma MergeIdempotent(m: Medicine, body: MedicineBody)
    ensures Merge(Merge(m, body), body) == Merge(m, body)
  {
  }

  /** PUT /api/medicines/:id. The path id is `parseInt`ed; `None` stands
      for NaN, which the database layer refuses to cast, so the handler's catch
      answers 500. Otherwise: 404 with nothing changed for an absent id, or
      the first entry with that id is merged with the body while every other
      entry, and every other collection, is left as it was. */
  function UpdateMedicine(db: Db, header: Option<string>, verify: string -> Option<Principal>, id: Option<int>, body: MedicineBody): (r: Reply)
    ensures AdminGate(header, verify).Failure? ==> r == Reply(db, AdminGate(header, verify).status, None)
    ensures AdminGate(header, verify).Success? && id.None? ==> r == Reply(db, InternalServerError, None)
    ensures AdminGate(header, verify).Success? && id.Some? ==>
              (r.status == NotFound <==> !HasMedicine(db.medicines, id.value))
    ensures AdminGate(header, verify).Success? && id.Some? && HasMedicine(db.medicines, id.value) ==> r.status == Ok
    ensures r.status != Ok ==> r.db == db
    ensures r.status == Ok ==>
              && id.Some? && HasMedicine(db.medicines, id.value)
              && var k := IndexOfMedicine(db.medicines, id.value).value;
              && r.db == db.(medicines := r.db.medicines)
              && |r.db.medicines| == |db.medicines|
              && r.db.medicines[k] == Merge(db.medicines[k], body)
              && r.item == Some(r.db.medicines[k])
              && (forall i :: 0 <= i < |db.medicines| && i != k ==> r.db.medicines[i] == db.medicines[i])
    ensures UniqueIds(db.medicines) ==> UniqueIds(r.db.medicines)
  {
    match AdminGate(header, verify)
    case Failure(s) => Reply(db, s, None)
    case Success(_) =>
      match id
      case None => Reply(db, InternalServerError, None)
      case Some(n) =>
        match IndexOfMedicine(db.medicines, n)
        case None => Reply(db, NotFound, None)
        case Some(k) =>
          var m := Merge(db.medicines[k], body);
          Reply(db.(medicines := db.medicines[k := m]), Ok, Some(m))
  }

  /** DELETE /api/medicines/:id: 500 for an id that does not parse, as for
      the update; 404 with nothing changed for an absent id; otherwise the
      first entry with that id goes and the rest keep their order. */
  function DeleteMedicine(db: Db, header: Option<string>, verify: string -> Option<Principal>, id: Option<int>): (r: Reply)
    ensures AdminGate(header, verify).Failure? ==> r == Reply(db, AdminGate(header, verify).status, None)
    ensures AdminGate(header, verify).Success? && id.None? ==> r == Reply(db, InternalServerError, None)
    ensures AdminGate(header, verify).Success? && id.Some? ==>
              (r.status == NotFound <==> !HasMedicine(db.medicines, id.value))
    ensures AdminGate(header, verify).Success? && id.Some? && HasMedicine(db.medicines, id.value) ==> r.status == Ok
    ensures r.item.None?
    ensures r.status != Ok ==> r.db == db
    ensures r.status == Ok ==>
              && id.Some? && HasMedicine(db.medicines, id.value)
              && var k := IndexOfMedicine(db.medicines, id.value).value;
              && r.db == db.(medicines := r.db.medicines)
              && |r.db.medicines| == |db.medicines| - 1
              && r.db.medicines == db.medicines[..k] + db.medicines[k + 1..]
  {
    match AdminGate(header, verify)
    case Failure(s) => Reply(db, s, None)
    case Success(_) =>
      match id
      case None => Reply(db, InternalServerError, None)
      case Some(n) =>
        match IndexOfMedicine(db.medicines, n)
        case None => Reply(db, NotFound, None)
        case Some(k) => Reply(db.(medicines := db.medicines[..k] + db.medicines[k + 1..]), Ok, None)
  }

  predicate IdIsNot(id: int, m: Medicine) {
    m.id != id
  }

  /** With unique ids, a delete removes exactly the entries with that id: the
      result is the catalogue filtered on every other id. */
  lemma DeleteRemovesExactlyThatId(db: Db, header: Option<string>, verify: string -> Option<Principal>, id: int)
    requires UniqueIds(db.medicines)
    requires DeleteMedicine(db, header, verify, Some(id)).status == Ok
    ensures DeleteMedicine(db, header, verify, Some(id)).db.medicines == Filter(db.medicines, m => IdIsNot(id, m))
    ensures !HasMedicine(DeleteMedicine(db, header, verify, Some(id)).db.medicines, id)
  {
    var meds := db.medicines;
    var k := IndexOfMedicine(meds, id).value;
    FilterSplit(meds, k, id);
  }

  /** Filtering out an id that occurs exactly at index k cuts out index k. */
  lemma FilterSplit(meds: seq<Medicine>, k: nat, id: int)
    requires UniqueIds(meds)
    requires k < |meds| && meds[k].id == id
    ensures Filter(meds, m => IdIsNot(id, m)) == meds[..k] + meds[k + 1..]
  {
    forall i | 0 <= i < |meds| && i != k
      ensures IdIsNot(id, meds[i])
    {
      assert meds[i].id != meds[k].id;
    }
    FilterDropsOne(meds, m => IdIsNot(id, m), k);
  }
}
