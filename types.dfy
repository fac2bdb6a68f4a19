/** The registry document and its records, as decoded from claims/registry.yaml. */
module RegistryTypes {

  /** One provisioned claim. Every field is a plain string: a field the
      document leaves out decodes to "", not to a separate "absent" value. */
  datatype ClaimEntry = ClaimEntry(
    name: string,
    template: string,
    category: string,
    namespace: string,
    createdAt: string,
    createdBy: string,
    source: string,
    repository: string,
    path: string,
    status: string)

  /** The whole document: its two tags and its claims in file order.
      Nothing here makes names unique; duplicate names are a legal value. */
  datatype ClaimRegistry = ClaimRegistry(
    apiVersion: string,
    kind: string,
    claims: seq<ClaimEntry>)
}
