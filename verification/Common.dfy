// Vocabulary shared by every component: identifiers, optional values and the
// capability names that roles are made of.
module Common {

  datatype Option<+T> = None | Some(value: T)

  // A uuid, read as the 128-bit number PostgreSQL orders it by. The bound itself plays
  // no part in any argument, so it is not imposed.
  type Id = nat

  datatype Capability =
    | View
    | Run
    | Edit
    | Export
    | ProtectExport
    | Delete
    | ManageMembers
    | CreateTeam
    | ManageOrg
    | ManageRoles
    | ManageApiKeys
}
