/** The portfolio User and Owner classes. `datetime.now()` at construction is a `now`
    parameter. */
module Users {
  import opened PyText
  import opened Calendar

  /** A user; the name is kept title-cased and the email lower-cased. */
  class User {
    var name: string
    var email: string
    var dateJoined: Instant

    constructor (name: string, email: string, now: Instant)
      ensures this.name == Title(name) && this.email == Lower(email) && dateJoined == now
    {
      this.name := Title(name);
      this.email := Lower(email);
      dateJoined := now;
    }
  }

  /** The permissions every owner starts with. */
  const OwnerPermissions: seq<string> := ["create_tasks", "edit_tasks", "delete_tasks", "manage_users"]

  /** An owner: a user with permissions and a count of the task lists created. */
  class Owner {
    var name: string
    var email: string
    var dateJoined: Instant
    var permissions: seq<string>
    var tasksCreated: nat

    constructor (name: string, email: string, now: Instant)
      ensures this.name == Title(name) && this.email == Lower(email) && dateJoined == now
      ensures permissions == OwnerPermissions && tasksCreated == 0
    {
      this.name := Title(name);
      this.email := Lower(email);
      dateJoined := now;
      permissions := OwnerPermissions;
      tasksCreated := 0;
    }

    /** `create_task_list()`: one more task list, nothing else changes. */
    method CreateTaskList()
      modifies this
      ensures tasksCreated == old(tasksCreated) + 1
      ensures name == old(name) && email == old(email) && dateJoined == old(dateJoined)
      ensures permissions == old(permissions)
    {
      tasksCreated := tasksCreated + 1;
    }
  }

  /** The stored name and email are already normal: normalising them again changes nothing,
      and the name has the same letters in the same places as the one given. */
  lemma NormalisedContact(name: string, email: string)
    ensures Title(Title(name)) == Title(name) && Lower(Lower(email)) == Lower(email)
    ensures |Title(name)| == |name| && |Lower(email)| == |email|
  {
    TitleIdempotent(name, false);
    LowerIdempotent(email);
  }
}
