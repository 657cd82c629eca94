// The roles a user can have in a customer and in a workspace (backend/src/doda/domain/security/roles.py).
module Roles {
  datatype CustomerRole = CustomerOwner | PlainMember | Auditor

  datatype WorkspaceRole = WorkspaceAdmin | WorkspaceMember
}
