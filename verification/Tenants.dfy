// The status of a tenant, which sign-in reads and billing sets.
module Tenants {

  datatype TenantStatus = ACTIVE | SUSPENDED | TRIAL | CANCELLED
}
