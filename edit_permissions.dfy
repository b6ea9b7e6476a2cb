/** The permission editor. The shallow copy of the permission list shares
    its entry objects, so a checkbox change writes into the entry itself. */
module EditPermissions {

  /** One entry of a user's permission list; the editor flips its flags in place. */
  class PermissionEntry {
    var purpose: string
    var canRead: bool
    var canWrite: bool

    constructor (purpose: string, canRead: bool, canWrite: bool)
      ensures this.purpose == purpose && this.canRead == canRead && this.canWrite == canWrite
    {
      this.purpose, this.canRead, this.canWrite := purpose, canRead, canWrite;
    }
  }

  /** The checkbox names the editor renders. */
  datatype Flag = CanRead | CanWrite

  datatype UserPermissions = UserPermissions(
    id: string, username: string, email: string, permissions: seq<PermissionEntry>)

  /** `handlePermissionChange`: finds the first entry for `purpose` and sets
      the named flag to `checked`; the user passed to `setUser` is a copy
      holding the same entries. `index` is `-1` when no entry matches. */
  method HandlePermissionChange(up: UserPermissions, name: Flag, checked: bool, purpose: string)
      returns (updated: UserPermissions, index: int)
    modifies set i | 0 <= i < |up.permissions| :: up.permissions[i]
    ensures updated == up
    ensures -1 <= index < |up.permissions|
    ensures forall i :: 0 <= i < |up.permissions| ==> up.permissions[i].purpose == old(up.permissions[i].purpose)
    ensures index == -1 <==> forall i :: 0 <= i < |up.permissions| ==> up.permissions[i].purpose != purpose
    ensures index != -1 ==>
      && up.permissions[index].purpose == purpose
      && (forall j :: 0 <= j < index ==> up.permissions[j].purpose != purpose)
    ensures index != -1 && name == CanRead ==>
      up.permissions[index].canRead == checked && up.permissions[index].canWrite == old(up.permissions[index].canWrite)
    ensures index != -1 && name == CanWrite ==>
      up.permissions[index].canWrite == checked && up.permissions[index].canRead == old(up.permissions[index].canRead)
    ensures forall i :: 0 <= i < |up.permissions| && (index == -1 || up.permissions[i] != up.permissions[index]) ==>
      up.permissions[i].canRead == old(up.permissions[i].canRead) && up.permissions[i].canWrite == old(up.permissions[i].canWrite)
  {
    var entries := up.permissions;
    index := -1;
    var k := 0;
    while k < |entries|
      invariant 0 <= k <= |entries|
      invariant forall j :: 0 <= j < k ==> entries[j].purpose != purpose
    {
      if entries[k].purpose == purpose {
        index := k;
        break;
      }
      k := k + 1;
    }
    if index != -1 {
      match name
      case CanRead => entries[index].canRead := checked;
      case CanWrite => entries[index].canWrite := checked;
    }
    updated := up.(permissions := entries);
  }
}
