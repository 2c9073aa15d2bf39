/** The supplier page keeps four separate field states plus an `isUpdating`
    flag beside the id of the supplier being updated; every handler sets the
    flag and the id together, so the pair never disagrees. */
module Supplier {
  import opened Common
  import RecordForm
  import Decimal

  const SupplierPage := RecordForm.Page(
    "api/suppliers/", "api/suppliers/",
    map["name" := Str(""), "phone" := Str(""), "email" := Str(""), "address" := Str("")],
    None, {}, {"name", "phone", "email", "address"},
    map["phone" := RecordForm.Patterns.Phone])

  /** `supplierData`: the four field states as one payload. */
  function Payload(name: Value, phone: Value, email: Value, address: Value): (body: Body)
    ensures body.Keys == SupplierPage.blank.Keys
    ensures body["name"] == name && body["phone"] == phone && body["email"] == email && body["address"] == address
  {
    map["name" := name, "phone" := phone, "email" := email, "address" := address]
  }

  /** `supplier.name` and the like: undefined where the record lacks it. */
  function Property(fields: Body, key: string): Value
  {
    if key in fields then fields[key] else Undefined
  }

  /** Copying the four properties one by one builds the form the shared edit
      form populates. */
  lemma PopulatedPayload(selected: RecordForm.Listed)
    ensures var f := selected.fields;
            Payload(Property(f, "name"), Property(f, "phone"), Property(f, "email"), Property(f, "address")) ==
            RecordForm.Populate(SupplierPage, selected)
  {
    var f := selected.fields;
    var p := Payload(Property(f, "name"), Property(f, "phone"), Property(f, "email"), Property(f, "address"));
    var q := RecordForm.Populate(SupplierPage, selected);
    assert p.Keys == q.Keys;
    forall k | k in p
      ensures p[k] == q[k]
    {
      assert k == "name" || k == "phone" || k == "email" || k == "address";
    }
  }

  class SupplierManager {
    var supplierName: Value
    var supplierPhone: Value
    var supplierEmail: Value
    var supplierAddress: Value
    var supplierList: seq<RecordForm.Listed>
    var isLoading: bool
    var isUpdating: bool
    var currentSupplierId: Option<int>

    ghost predicate Valid()
      reads this
    {
      isUpdating <==> currentSupplierId.Some?
    }

    function Form(): Body
      reads this
    {
      Payload(supplierName, supplierPhone, supplierEmail, supplierAddress)
    }

    constructor ()
      ensures Valid()
      ensures Form() == SupplierPage.blank && supplierList == [] && !isLoading && !isUpdating
    {
      supplierName, supplierPhone, supplierEmail, supplierAddress := Str(""), Str(""), Str(""), Str("");
      supplierList, isLoading, isUpdating, currentSupplierId := [], false, false, None;
    }

    method SetSupplierName(value: string)
      modifies this`supplierName
      ensures supplierName == Str(value)
    {
      supplierName := Str(value);
    }

    method SetSupplierPhone(value: string)
      modifies this`supplierPhone
      ensures supplierPhone == Str(value)
    {
      supplierPhone := Str(value);
    }

    method SetSupplierEmail(value: string)
      modifies this`supplierEmail
      ensures supplierEmail == Str(value)
    {
      supplierEmail := Str(value);
    }

    method SetAddress(value: string)
      modifies this`supplierAddress
      ensures supplierAddress == Str(value)
    {
      supplierAddress := Str(value);
    }

    /** `fetchSuppliers`. */
    method FetchSuppliers(response: Response<seq<RecordForm.Listed>>) returns (sent: seq<Call>)
      modifies this`supplierList, this`isLoading
      ensures sent == [RecordForm.ListCall(SupplierPage)] && !isLoading
      ensures supplierList == if response.Ok? then response.data else old(supplierList)
    {
      isLoading := true;
      sent := [Call(Get, "api/suppliers/", map[])];
      if response.Ok? {
        supplierList := response.data;
      }
      isLoading := false;
    }

    /** `handleUpdate(id)`: the four properties of the supplier with that id
        copied into the fields (the form `PopulatedPayload` relates to the
        shared edit form's); a supplier missing from the list changes nothing. */
    method HandleUpdate(id: int)
      requires Valid()
      modifies this`supplierName, this`supplierPhone, this`supplierEmail, this`supplierAddress,
               this`currentSupplierId, this`isUpdating
      ensures Valid()
      ensures RecordForm.Selected(supplierList, id).None? ==>
                && supplierName == old(supplierName) && supplierPhone == old(supplierPhone)
                && supplierEmail == old(supplierEmail) && supplierAddress == old(supplierAddress)
                && isUpdating == old(isUpdating) && currentSupplierId == old(currentSupplierId)
      ensures RecordForm.Selected(supplierList, id).Some? ==>
                var fields := RecordForm.Selected(supplierList, id).value.fields;
                && supplierName == Property(fields, "name") && supplierPhone == Property(fields, "phone")
                && supplierEmail == Property(fields, "email") && supplierAddress == Property(fields, "address")
                && isUpdating && currentSupplierId == Some(id)
    {
      var supplier := RecordForm.Selected(supplierList, id);
      if supplier.Some? {
        var fields := supplier.value.fields;
        supplierName := Property(fields, "name");
        supplierPhone := Property(fields, "phone");
        supplierEmail := Property(fields, "email");
        supplierAddress := Property(fields, "address");
        currentSupplierId := Some(id);
        isUpdating := true;
      }
    }

    /** `handleCancel`. */
    method HandleCancel()
      modifies this`supplierName, this`supplierPhone, this`supplierEmail, this`supplierAddress,
               this`currentSupplierId, this`isUpdating
      ensures Valid()
      ensures Form() == SupplierPage.blank && !isUpdating && currentSupplierId == None
    {
      supplierName, supplierPhone, supplierEmail, supplierAddress := Str(""), Str(""), Str(""), Str("");
      currentSupplierId := None;
      isUpdating := false;
    }

    /** `handleSubmit` up to the request: the same request the shared edit
        form would issue for this payload and id. */
    method Submit() returns (call: Call)
      requires Valid()
      modifies this`isLoading
      ensures isLoading
      ensures call == RecordForm.Request(SupplierPage, Form(), currentSupplierId)
    {
      isLoading := true;
      var supplierData := Payload(supplierName, supplierPhone, supplierEmail, supplierAddress);
      if isUpdating {
        call := Call(Put, RecordForm.Target(SupplierPage, currentSupplierId.value), supplierData);
      } else {
        call := Call(Post, "api/suppliers/", supplierData);
      }
    }

    /** `handleSubmit` after the request settles. */
    method Settle(outcome: Response<Body>, refreshed: Response<seq<RecordForm.Listed>>) returns (sent: seq<Call>)
      requires Valid()
      modifies this
      ensures Valid() && !isLoading
      ensures outcome.Ok? ==>
                sent == [RecordForm.ListCall(SupplierPage)] && Form() == SupplierPage.blank &&
                !isUpdating && currentSupplierId == None &&
                supplierList == (if refreshed.Ok? then refreshed.data else old(supplierList))
      ensures outcome.Fail? ==>
                sent == [] && Form() == old(Form()) && isUpdating == old(isUpdating) &&
                currentSupplierId == old(currentSupplierId) && supplierList == old(supplierList)
    {
      sent := [];
      if outcome.Ok? {
        sent := FetchSuppliers(refreshed);
        HandleCancel();
      }
      isLoading := false;
    }
  }

  /** With the pair consistent, the flag alone decides the method: updating
      PUTs to the current supplier's path, otherwise the payload is POSTed. */
  lemma UpdatingDecidesMethod(form: Body, isUpdating: bool, currentSupplierId: Option<int>)
    requires isUpdating <==> currentSupplierId.Some?
    ensures var call := RecordForm.Request(SupplierPage, form, currentSupplierId);
            && (isUpdating ==> call.verb == Put && call.path == "api/suppliers/" + Decimal.ShowInt(currentSupplierId.value) + "/")
            && (!isUpdating ==> call.verb == Post && call.path == "api/suppliers/")
  {
  }

  lemma SupplierPageWellFormed()
    ensures RecordForm.WellFormed(SupplierPage)
  {
  }
}
