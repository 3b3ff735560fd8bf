/**
 Users, the confidence-gated permission ladder and scam reporting.

 Confidence is a `NUMERIC(3,1)` column, so it is held here as an integer
 number of tenths: 1.0 is 10, 2.0 is 20, 3.0 is 30.
 */
module Accounts {
  import opened Wrappers
  import Decimal
  import Sites

  /** A confidence score in tenths of a point. */
  type Tenths = int

  /** The four capabilities `permissions_set` computes. */
  datatype Capability = CheckTutorials | RegisterScam | ApproveScam | ManageTutorials

  datatype Permissions = Permissions(
    canCheckTutorials: bool,
    canRegisterScam: bool,
    canApproveScam: bool,
    canManageTutorials: bool)

  /**
   A user. `perms` is `None` until `permissions_set` has run, since the
   capability attributes do not exist on the object before that.
   */
  datatype User = User(
    id: int,
    name: string,
    email: string,
    passwordHash: string,
    typeUser: string,
    confidence: Tenths,
    age: Option<int>,
    city: Option<string>,
    state: Option<string>,
    civilState: Option<string>,
    perms: Option<Permissions>)

  /** A reported scam; impact and risk are in tenths, like confidence. */
  datatype DigitalScam = DigitalScam(
    name: string,
    site: Sites.Site,
    typeScam: string,
    impactScore: Tenths,
    riskLevel: Tenths,
    evidence: string,
    reporter: User)

  datatype PermissionError = PermissionError(message: string)

  /** The threshold table: the least confidence that grants each capability. */
  function Required(c: Capability): Tenths
  {
    match c
    case CheckTutorials => 10
    case RegisterScam => 10
    case ApproveScam => 20
    case ManageTutorials => 30
  }

  predicate Grants(p: Permissions, c: Capability)
  {
    match c
    case CheckTutorials => p.canCheckTutorials
    case RegisterScam => p.canRegisterScam
    case ApproveScam => p.canApproveScam
    case ManageTutorials => p.canManageTutorials
  }

  /** The capabilities a confidence score grants: each one whose threshold it reaches. */
  function PermissionsFor(confidence: Tenths): (p: Permissions)
    ensures forall c :: Grants(p, c) <==> Required(c) <= confidence
  {
    Permissions(
      canCheckTutorials := confidence >= 10,
      canRegisterScam := confidence >= 10,
      canApproveScam := confidence >= 20,
      canManageTutorials := confidence >= 30)
  }

  /** `User.__init__`, with its defaults: type "noob" and confidence 1.0. */
  function NewUser(id: int, name: string, email: string, passwordHash: string,
                   typeUser: string := "noob", confidence: Tenths := 10,
                   age: Option<int> := None, city: Option<string> := None,
                   state: Option<string> := None, civilState: Option<string> := None): (u: User)
    ensures u.id == id && u.name == name && u.email == email && u.passwordHash == passwordHash
    ensures u.typeUser == typeUser && u.confidence == confidence
    ensures u.age == age && u.city == city && u.state == state && u.civilState == civilState
    ensures u.perms.None?
  {
    User(id, name, email, passwordHash, typeUser, confidence, age, city, state, civilState, None)
  }

  /** `UserNoob`: always type "noob" with confidence 1.0. */
  function NewUserNoob(id: int, name: string, email: string, passwordHash: string,
                       age: Option<int> := None, city: Option<string> := None,
                       state: Option<string> := None, civilState: Option<string> := None): (u: User)
    ensures u.typeUser == "noob" && u.confidence == 10 && u.id == id && u.perms.None?
    ensures u.name == name && u.email == email && u.passwordHash == passwordHash
    ensures u.age == age && u.city == city && u.state == state && u.civilState == civilState
  {
    NewUser(id, name, email, passwordHash, "noob", 10, age, city, state, civilState)
  }

  /** `UserExpert`: always type "expert" with confidence 2.0. */
  function NewUserExpert(id: int, name: string, email: string, passwordHash: string,
                         age: Option<int> := None, city: Option<string> := None,
                         state: Option<string> := None, civilState: Option<string> := None): (u: User)
    ensures u.typeUser == "expert" && u.confidence == 20 && u.id == id && u.perms.None?
    ensures u.name == name && u.email == email && u.passwordHash == passwordHash
    ensures u.age == age && u.city == city && u.state == state && u.civilState == civilState
  {
    NewUser(id, name, email, passwordHash, "expert", 20, age, city, state, civilState)
  }

  /** `Admin`: always type "admin" with confidence 3.0. */
  function NewAdmin(id: int, name: string, email: string, passwordHash: string,
                    age: Option<int> := None, city: Option<string> := None,
                    state: Option<string> := None, civilState: Option<string> := None): (u: User)
    ensures u.typeUser == "admin" && u.confidence == 30 && u.id == id && u.perms.None?
    ensures u.name == name && u.email == email && u.passwordHash == passwordHash
    ensures u.age == age && u.city == city && u.state == state && u.civilState == civilState
  {
    NewUser(id, name, email, passwordHash, "admin", 30, age, city, state, civilState)
  }

  /** `User.permissions_set`: fixes the capabilities from the confidence; nothing else changes. */
  function PermissionsSet(u: User): (r: User)
    ensures r.perms.Some?
    ensures forall c :: Grants(r.perms.value, c) <==> Required(c) <= u.confidence
    ensures r.(perms := u.perms) == u
  {
    u.(perms := Some(PermissionsFor(u.confidence)))
  }

  /** `User.get_id`: the user's id as decimal text. */
  function GetId(u: User): (s: string)
    ensures Decimal.ParseDecimal(s) == Some(u.id)
  {
    Decimal.IntRoundTrip(u.id);
    Decimal.IntToDecimal(u.id)
  }

  /**
   `User.report_scam`: refused with a permission error unless the user may
   register scams; otherwise a new report with zero impact and risk, filed by
   the caller.
   */
  function ReportScam(u: User, name: string, site: Sites.Site, typeScam: string, evidence: string)
    : (r: Result<DigitalScam, PermissionError>)
    requires u.perms.Some?
    ensures r.Failure? <==> !u.perms.value.canRegisterScam
    ensures r.Success? ==>
      r.value.reporter == u && r.value.impactScore == 0 && r.value.riskLevel == 0
      && r.value.name == name && r.value.site == site && r.value.typeScam == typeScam
      && r.value.evidence == evidence
  {
    if !u.perms.value.canRegisterScam then
      Failure(PermissionError("User lacks permissions to report scams."))
    else
      Success(DigitalScam(name, site, typeScam, 0, 0, evidence, u))
  }

  // ---------------------------------------------------------------------

  /** Each capability on the ladder implies the one below it. */
  lemma PermissionLadder(confidence: Tenths)
    ensures PermissionsFor(confidence).canManageTutorials ==> PermissionsFor(confidence).canApproveScam
    ensures PermissionsFor(confidence).canApproveScam ==> PermissionsFor(confidence).canRegisterScam
    ensures PermissionsFor(confidence).canRegisterScam <==> PermissionsFor(confidence).canCheckTutorials
  {
  }

  /** Raising confidence never revokes a capability. */
  lemma PermissionsMonotone(low: Tenths, high: Tenths, c: Capability)
    requires low <= high
    requires Grants(PermissionsFor(low), c)
    ensures Grants(PermissionsFor(high), c)
  {
  }

  /** Once permissions are set, a report is accepted exactly from confidence 1.0 up. */
  lemma ReportScamNeedsConfidence(u: User, name: string, site: Sites.Site, typeScam: string, evidence: string)
    ensures ReportScam(PermissionsSet(u), name, site, typeScam, evidence).Success? <==> u.confidence >= 10
  {
  }

  /** An `Admin` gets every capability. */
  lemma AdminGetsEverything(id: int, name: string, email: string, passwordHash: string, c: Capability)
    ensures Grants(PermissionsSet(NewAdmin(id, name, email, passwordHash)).perms.value, c)
  {
  }

  /** A `UserExpert` gets everything but tutorial management. */
  lemma ExpertGrants(id: int, name: string, email: string, passwordHash: string, c: Capability)
    ensures Grants(PermissionsSet(NewUserExpert(id, name, email, passwordHash)).perms.value, c)
        <==> c != ManageTutorials
  {
  }

  /** A `UserNoob` gets only the entry capabilities: checking tutorials and reporting scams. */
  lemma NoobGrants(id: int, name: string, email: string, passwordHash: string, c: Capability)
    ensures Grants(PermissionsSet(NewUserNoob(id, name, email, passwordHash)).perms.value, c)
        <==> c == CheckTutorials || c == RegisterScam
  {
  }

  /** Two users with the same `get_id` text have the same id. */
  lemma GetIdInjective(a: User, b: User)
    requires GetId(a) == GetId(b)
    ensures a.id == b.id
  {
  }
}
