/**
 * The add-user page (src/pages/AddUser.tsx): a list of form records kept in page state,
 * loaded once from the "addedUsers" slot, grown by one record per accepted submission,
 * and written back whole to the slot after every change.
 */
module AddUser {
  import opened Wrappers
  import opened Types
  import opened Storage

  class AddUserPage {
    /** The `users` state list. */
    var users: seq<UserFormData>
    /** The contents of the "addedUsers" storage slot. */
    var slot: Slot<UserFormData>

    /** The slot holds exactly the serialisation of the whole list. */
    predicate Synced()
      reads this
    {
      slot == Serialize(users)
    }

    /** The first render: the list is empty and the slot holds whatever was stored before. */
    constructor (stored: Slot<UserFormData>)
      ensures users == [] && slot == stored
    {
      users := [];
      slot := stored;
    }

    /** The save effect: the whole list overwrites the slot. */
    method Save()
      modifies this`slot
      ensures slot == Serialize(users)
    {
      slot := Serialize(users);
    }

    /**
     * The two mount effects, in the order they run: the load effect reads the slot and,
     * when it holds an array, schedules that array as the new list; the save effect then
     * writes the list of the first render; the re-render with the loaded list saves again.
     */
    method Mount()
      modifies this
      ensures users == if old(slot).Array? then old(slot).items else old(users)
      ensures Synced()
    {
      var loaded := StoredArray(slot);
      Save();
      if loaded.Some? {
        users := loaded.value;
        Save();
      }
    }

    /** `onSubmit`: append the record, then the save effect runs. */
    method OnSubmit(data: UserFormData)
      modifies this
      ensures users == old(users) + [data]
      ensures Synced()
    {
      users := users + [data];
      Save();
    }

    /**
     * `handleSubmit(onSubmit)`: the schema runs first; only a validated record reaches
     * `onSubmit`, otherwise the field messages are shown and nothing changes.
     */
    method HandleSubmit(raw: RawInput, isEmail: string -> bool) returns (errors: map<Field, string>)
      modifies this
      ensures Validate(raw, isEmail).Success? ==>
        errors == map[] && users == old(users) + [Validate(raw, isEmail).value] && Synced()
      ensures Validate(raw, isEmail).Success? ==> SchemaValid(users[|users| - 1], isEmail)
      ensures Validate(raw, isEmail).Failure? ==>
        errors == Validate(raw, isEmail).error && users == old(users) && slot == old(slot)
    {
      match Validate(raw, isEmail) {
        case Success(data) =>
          ValidatedIsSchemaValid(raw, isEmail);
          OnSubmit(data);
          errors := map[];
        case Failure(fieldErrors) =>
          errors := fieldErrors;
      }
    }
  }

  /** The list a fresh page ends up with after mounting on a given slot. */
  function LoadedUsers(stored: Slot<UserFormData>): (users: seq<UserFormData>)
    ensures stored.Array? ==> users == stored.items
    ensures !stored.Array? ==> users == []
  {
    match StoredArray(stored)
    case Some(items) => items
    case None => []
  }

  /**
   * Mounting a new page on a slot: an array is taken as it is, anything else leaves
   * the list empty and is replaced by the empty array.
   */
  method MountPage(stored: Slot<UserFormData>) returns (page: AddUserPage)
    ensures page.users == LoadedUsers(stored)
    ensures page.slot == Array(page.users)
    ensures !stored.Array? ==> page.slot == Array([])
  {
    page := new AddUserPage(stored);
    page.Mount();
  }

  /** A page mounted on the slot another page left behind sees the same list. */
  method ReloadKeepsUsers(page: AddUserPage) returns (reloaded: AddUserPage)
    requires page.Synced()
    ensures reloaded.users == page.users && reloaded.Synced()
  {
    reloaded := MountPage(page.slot);
    SerializeRoundTrip(page.users);
  }
}
