/** The job-role names both keyword tables are indexed by, and the property
    names a JavaScript object literal inherits, which a lookup by name also
    finds. */
module Roles {
  import opened Wrappers

  /** Every role that has an entry in at least one keyword table. */
  datatype JobRole =
    | SoftwareEngineer | ProductManager | UxDesigner | SalesManager | DataScientist
    | MarketingDirector | HrManager | FinanceAnalyst | CustomerSupport

  /** The table key under which a role's keywords are stored. */
  function RoleName(r: JobRole): string {
    match r
    case SoftwareEngineer => "Software Engineer"
    case ProductManager => "Product Manager"
    case UxDesigner => "UX Designer"
    case SalesManager => "Sales Manager"
    case DataScientist => "Data Scientist"
    case MarketingDirector => "Marketing Director"
    case HrManager => "HR Manager"
    case FinanceAnalyst => "Finance Analyst"
    case CustomerSupport => "Customer Support"
  }

  /** The role whose key is exactly `name`, if any: the own properties of the
      keyword tables. */
  function RoleNamed(name: string): Option<JobRole> {
    if name == RoleName(SoftwareEngineer) then Some(SoftwareEngineer)
    else if name == RoleName(ProductManager) then Some(ProductManager)
    else if name == RoleName(UxDesigner) then Some(UxDesigner)
    else if name == RoleName(SalesManager) then Some(SalesManager)
    else if name == RoleName(DataScientist) then Some(DataScientist)
    else if name == RoleName(MarketingDirector) then Some(MarketingDirector)
    else if name == RoleName(HrManager) then Some(HrManager)
    else if name == RoleName(FinanceAnalyst) then Some(FinanceAnalyst)
    else if name == RoleName(CustomerSupport) then Some(CustomerSupport)
    else None
  }

  /** Every role is found under its own key. */
  lemma RoleNamedInvertsRoleName(r: JobRole)
    ensures RoleNamed(RoleName(r)) == Some(r)
  {
    match r
    case SoftwareEngineer =>
    case ProductManager =>
    case UxDesigner =>
    case SalesManager =>
    case DataScientist =>
    case MarketingDirector =>
    case HrManager =>
    case FinanceAnalyst =>
    case CustomerSupport =>
  }

  /** A name is found only when it is exactly the role's key. */
  lemma RoleNamedOnlyByKey(name: string)
    ensures RoleNamed(name).Some? ==> RoleName(RoleNamed(name).value) == name
  {
  }

  /** The property names every JavaScript object literal inherits from
      `Object.prototype`; looking one of them up in a keyword table yields a
      function or object instead of `undefined`. */
  predicate IsObjectPrototypeKey(name: string) {
    name in {"constructor", "__defineGetter__", "__defineSetter__", "hasOwnProperty",
             "__lookupGetter__", "__lookupSetter__", "isPrototypeOf", "propertyIsEnumerable",
             "toString", "valueOf", "__proto__", "toLocaleString"}
  }

  /** No role key is an inherited property name. */
  lemma RoleKeyNotInherited(r: JobRole)
    ensures !IsObjectPrototypeKey(RoleName(r))
  {
    match r
    case SoftwareEngineer =>
    case ProductManager =>
    case UxDesigner =>
    case SalesManager =>
    case DataScientist =>
    case MarketingDirector =>
    case HrManager =>
    case FinanceAnalyst =>
    case CustomerSupport =>
  }

  /** So an inherited property name is never an own property of a table. */
  lemma PrototypeKeysAreNotRoles(name: string)
    ensures IsObjectPrototypeKey(name) ==> RoleNamed(name).None?
  {
    if RoleNamed(name).Some? {
      RoleNamedOnlyByKey(name);
      RoleKeyNotInherited(RoleNamed(name).value);
    }
  }
}
