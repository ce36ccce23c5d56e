/** The offline address book of the account pages (`localStorageService` in
    `pages/MyAccount/Addresses.jsx`): a list of addresses under the
    "userAddresses" key of browser storage, with one address meant to be the
    default. */
module AddressBook {
  import opened Options
  import opened Seqs
  import opened Storage

  const AddressesKey := "userAddresses"

  /** A saved address; `kind` is the source's `type` (home, work, ...). The
      address form holds the same record, whose id is ignored on save. */
  datatype Address = Address(
    id: string, name: string, street: string, city: string, state: string,
    zip: string, country: string, phone: string, kind: string,
    isDefault: bool, createdAt: Option<string>)

  /** The required-field check of `handleSubmit`. */
  predicate RequiredFilled(form: Address) {
    && form.name != "" && form.street != "" && form.city != ""
    && form.state != "" && form.zip != "" && form.phone != ""
  }

  predicate UniqueIds(list: seq<Address>) {
    forall i, j :: 0 <= i < |list| && 0 <= j < |list| && i != j ==> list[i].id != list[j].id
  }

  predicate AtMostOneDefault(list: seq<Address>) {
    forall i, j :: 0 <= i < |list| && 0 <= j < |list| && list[i].isDefault && list[j].isDefault ==> i == j
  }

  predicate FreshId(list: seq<Address>, id: string) {
    forall i :: 0 <= i < |list| ==> list[i].id != id
  }

  /** `getAddresses`: [] when the key is absent or holds the empty string;
      None when the text does not parse (`JSON.parse` throws). */
  function LoadAddresses(store: Store<seq<Address>>): (r: Option<seq<Address>>)
    ensures AddressesKey !in store ==> r == Some([])
    ensures AddressesKey in store ==> (r.None? <==> store[AddressesKey].Corrupt?)
    ensures AddressesKey in store && store[AddressesKey].Stored? ==> r == Some(store[AddressesKey].value)
    ensures AddressesKey in store && store[AddressesKey].Blank? ==> r == Some([])
  {
    if AddressesKey !in store then Some([])
    else match store[AddressesKey]
      case Stored(v) => Some(v)
      case Blank => Some([])
      case Corrupt => None
  }

  /** `addresses.map(addr => addr.id === id ? {...data, id} : addr)` */
  function ReplaceById(list: seq<Address>, id: string, data: Address): (r: seq<Address>)
    ensures |r| == |list|
    ensures forall i :: 0 <= i < |list| ==> r[i] == if list[i].id == id then data.(id := id) else list[i]
  {
    seq(|list|, i requires 0 <= i < |list| => if list[i].id == id then data.(id := id) else list[i])
  }

  /** `addresses.map(addr => ({...addr, isDefault: addr.id === target}))` */
  function MarkDefault(list: seq<Address>, target: string): (r: seq<Address>)
    ensures |r| == |list|
    ensures forall i :: 0 <= i < |list| ==> r[i] == list[i].(isDefault := list[i].id == target)
  {
    seq(|list|, i requires 0 <= i < |list| => list[i].(isDefault := list[i].id == target))
  }

  function AddressLacksId(id: string): Address -> bool {
    (a: Address) => a.id != id
  }

  /** The record appended by a save that is not an edit; `freshId` and `now`
      stand for `Date.now().toString()` and the ISO time stamp. */
  function NewAddress(data: Address, freshId: string, now: string): Address {
    data.(id := freshId, createdAt := Some(now))
  }

  predicate IsEdit(isEditing: bool, addressId: Option<string>) {
    isEditing && Filled(addressId)
  }

  /** `addressId || addresses[addresses.length - 1].id` for the default step;
      when addressId is falsy the last entry is the one just appended. */
  function DefaultTarget(addressId: Option<string>, freshId: string): string {
    if Filled(addressId) then addressId.value else freshId
  }

  /** The list `saveAddress` stores and returns, given the loaded list. */
  function SavedList(list: seq<Address>, data: Address, isEditing: bool, addressId: Option<string>,
                     freshId: string, now: string): seq<Address>
  {
    var edited := if IsEdit(isEditing, addressId) then ReplaceById(list, addressId.value, data)
                  else list + [NewAddress(data, freshId, now)];
    if data.isDefault then MarkDefault(edited, DefaultTarget(addressId, freshId)) else edited
  }

  // ---------------------------------------------------------------------------
  // Properties

  /** An edit (truthy addressId) replaces each entry with that id by the form
      data, keeping the id; with a non-default form nothing else changes. */
  lemma SaveEditReplaces(list: seq<Address>, data: Address, addressId: Option<string>, freshId: string, now: string)
    requires Filled(addressId) && !data.isDefault
    ensures var r := SavedList(list, data, true, addressId, freshId, now);
      && |r| == |list|
      && forall i :: 0 <= i < |list| ==>
           r[i] == if list[i].id == addressId.value then data.(id := addressId.value) else list[i]
  {
  }

  /** Any other save, including an edit with a missing id, appends exactly one
      record with the fresh id; with a non-default form the old entries are
      untouched. */
  lemma SaveAppends(list: seq<Address>, data: Address, isEditing: bool, addressId: Option<string>,
                    freshId: string, now: string)
    requires !IsEdit(isEditing, addressId) && !data.isDefault
    ensures var r := SavedList(list, data, isEditing, addressId, freshId, now);
      && |r| == |list| + 1
      && r[..|list|] == list
      && r[|list|].id == freshId && r[|list|].createdAt == Some(now)
  {
    assert (list + [NewAddress(data, freshId, now)])[..|list|] == list;
  }

  /** A default form makes exactly the entries with the target id default;
      the length is that of the plain edit or append. */
  lemma SaveDefaultMarksTarget(list: seq<Address>, data: Address, isEditing: bool, addressId: Option<string>,
                               freshId: string, now: string)
    requires data.isDefault
    ensures var r := SavedList(list, data, isEditing, addressId, freshId, now);
      && |r| == (if IsEdit(isEditing, addressId) then |list| else |list| + 1)
      && forall i :: 0 <= i < |r| ==> (r[i].isDefault <==> r[i].id == DefaultTarget(addressId, freshId))
  {
  }

  /** A save with a default form is the same save with a non-default form
      followed by marking the target, so `SaveEditReplaces` and
      `SaveAppends` give its contents and `MarkDefault` its flags. */
  lemma DefaultSaveIsMarkedPlainSave(list: seq<Address>, data: Address, isEditing: bool,
                                     addressId: Option<string>, freshId: string, now: string)
    requires data.isDefault
    ensures SavedList(list, data, isEditing, addressId, freshId, now)
      == MarkDefault(SavedList(list, data.(isDefault := false), isEditing, addressId, freshId, now),
                     DefaultTarget(addressId, freshId))
  {
  }

  /** With unique ids and a fresh id, a save keeps ids unique. */
  lemma SaveKeepsUniqueIds(list: seq<Address>, data: Address, isEditing: bool, addressId: Option<string>,
                           freshId: string, now: string)
    requires UniqueIds(list) && FreshId(list, freshId)
    ensures UniqueIds(SavedList(list, data, isEditing, addressId, freshId, now))
  {
  }

  /** Saving never produces two defaults when ids are unique and the fresh id
      is new. */
  lemma SaveKeepsSingleDefault(list: seq<Address>, data: Address, isEditing: bool, addressId: Option<string>,
                               freshId: string, now: string)
    requires UniqueIds(list) && FreshId(list, freshId) && AtMostOneDefault(list)
    ensures AtMostOneDefault(SavedList(list, data, isEditing, addressId, freshId, now))
  {
    var r := SavedList(list, data, isEditing, addressId, freshId, now);
    SaveKeepsUniqueIds(list, data, isEditing, addressId, freshId, now);
    if data.isDefault {
      SaveDefaultMarksTarget(list, data, isEditing, addressId, freshId, now);
    } else if !IsEdit(isEditing, addressId) {
      SaveAppends(list, data, isEditing, addressId, freshId, now);
      forall i, j | 0 <= i < |r| && 0 <= j < |r| && r[i].isDefault && r[j].isDefault ensures i == j {
        assert i < |list| && j < |list|;
        assert r[i] == list[i] && r[j] == list[j];
      }
    }
  }

  /** `setDefaultAddress(id)`: every entry's flag becomes (entry.id == id);
      with unique ids at most one default remains, and an unknown id clears
      them all. */
  lemma SetDefaultSpec(list: seq<Address>, id: string)
    ensures |MarkDefault(list, id)| == |list|
    ensures forall i :: 0 <= i < |list| ==> (MarkDefault(list, id)[i].isDefault <==> list[i].id == id)
    ensures UniqueIds(list) ==> AtMostOneDefault(MarkDefault(list, id))
    ensures FreshId(list, id) ==> forall i :: 0 <= i < |list| ==> !MarkDefault(list, id)[i].isDefault
  {
  }

  /** `deleteAddress(id)` drops all entries with the id and keeps the others
      in order. */
  lemma DeleteSpec(list: seq<Address>, more: seq<Address>, id: string)
    ensures FreshId(Filter(list, AddressLacksId(id)), id)
    ensures forall i :: 0 <= i < |list| && list[i].id != id ==> list[i] in Filter(list, AddressLacksId(id))
    ensures Filter(list + more, AddressLacksId(id)) == Filter(list, AddressLacksId(id)) + Filter(more, AddressLacksId(id))
  {
    FilterConcat(list, more, AddressLacksId(id));
  }

  // ---------------------------------------------------------------------------
  // The storage service and the submit handler

  datatype SubmitOutcome =
    | MissingFields             // "Please fill all required fields."
    | SavedRemotely             // the address API accepted the save
    | SavedLocally(list: seq<Address>)
    | SaveFailed                // "Failed to save address"

  class LocalAddressBook {
    var storage: Store<seq<Address>>

    constructor (store: Store<seq<Address>>)
      ensures storage == store
    {
      storage := store;
    }

    /** `saveAddress`; None when the stored list does not parse (the call throws). */
    method SaveAddress(data: Address, isEditing: bool, addressId: Option<string>, freshId: string, now: string)
      returns (r: Option<seq<Address>>)
      modifies this
      ensures LoadAddresses(old(storage)).None? ==> r.None? && storage == old(storage)
      ensures LoadAddresses(old(storage)).Some? ==>
        && r == Some(SavedList(LoadAddresses(old(storage)).value, data, isEditing, addressId, freshId, now))
        && storage == old(storage)[AddressesKey := Stored(r.value)]
    {
      var loaded := LoadAddresses(storage);
      if loaded.None? {
        return None;
      }
      var addresses := loaded.value;
      if isEditing && Filled(addressId) {
        addresses := ReplaceById(addresses, addressId.value, data);
      } else {
        addresses := addresses + [NewAddress(data, freshId, now)];
      }
      if data.isDefault {
        var target := if Filled(addressId) then addressId.value else addresses[|addresses| - 1].id;
        addresses := MarkDefault(addresses, target);
      }
      storage := storage[AddressesKey := Stored(addresses)];
      r := Some(addresses);
    }

    method DeleteAddress(id: string) returns (r: Option<seq<Address>>)
      modifies this
      ensures LoadAddresses(old(storage)).None? ==> r.None? && storage == old(storage)
      ensures LoadAddresses(old(storage)).Some? ==>
        && r == Some(Filter(LoadAddresses(old(storage)).value, AddressLacksId(id)))
        && storage == old(storage)[AddressesKey := Stored(r.value)]
    {
      var loaded := LoadAddresses(storage);
      if loaded.None? {
        return None;
      }
      var addresses := Filter(loaded.value, AddressLacksId(id));
      storage := storage[AddressesKey := Stored(addresses)];
      r := Some(addresses);
    }

    method SetDefaultAddress(id: string) returns (r: Option<seq<Address>>)
      modifies this
      ensures LoadAddresses(old(storage)).None? ==> r.None? && storage == old(storage)
      ensures LoadAddresses(old(storage)).Some? ==>
        && r == Some(MarkDefault(LoadAddresses(old(storage)).value, id))
        && storage == old(storage)[AddressesKey := Stored(r.value)]
    {
      var loaded := LoadAddresses(storage);
      if loaded.None? {
        return None;
      }
      var addresses := MarkDefault(loaded.value, id);
      storage := storage[AddressesKey := Stored(addresses)];
      r := Some(addresses);
    }

    /** `handleSubmit`. `hasToken` is whether a token is stored; `apiSaved` is
        the outcome of the address API call, tried first when there is a
        token. Local storage is the fallback. */
    method Submit(form: Address, isEditing: bool, editingId: Option<string>, hasToken: bool, apiSaved: bool,
                  freshId: string, now: string)
      returns (outcome: SubmitOutcome)
      modifies this
      ensures !RequiredFilled(form) ==> outcome == MissingFields && storage == old(storage)
      ensures RequiredFilled(form) && hasToken && apiSaved ==> outcome == SavedRemotely && storage == old(storage)
      ensures RequiredFilled(form) && !(hasToken && apiSaved) ==>
        match LoadAddresses(old(storage))
        case None => outcome == SaveFailed && storage == old(storage)
        case Some(list) =>
          var saved := SavedList(list, form, isEditing, editingId, freshId, now);
          outcome == SavedLocally(saved) && storage == old(storage)[AddressesKey := Stored(saved)]
    {
      if !RequiredFilled(form) {
        return MissingFields;
      }
      if hasToken && apiSaved {
        return SavedRemotely;
      }
      var r := SaveAddress(form, isEditing, editingId, freshId, now);
      outcome := if r.Some? then SavedLocally(r.value) else SaveFailed;
    }
  }
}
