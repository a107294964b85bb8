/**
 * The record types of models.py: the role enumeration, the User and Contact
 * rows, and the ContactCreate / ContactResponse request and response shapes.
 */
module Models {
  import opened Wrappers
  import opened Passwords

  // ---------------------------------------------------------------- roles

  /** The two roles; the table column stores their string values. */
  datatype UserRole = USER | ADMIN

  function RoleValue(r: UserRole): (s: string)
    ensures s == "user" <==> r == USER
    ensures s == "admin" <==> r == ADMIN
  {
    match r
    case USER => "user"
    case ADMIN => "admin"
  }

  /** `UserRole(s)`: the member whose value is `s`, if there is one. */
  function RoleFromValue(s: string): (r: Option<UserRole>)
    ensures r.Some? <==> (s == "user" || s == "admin")
    ensures r.Some? ==> RoleValue(r.value) == s
  {
    if s == "user" then Some(USER)
    else if s == "admin" then Some(ADMIN)
    else None
  }

  lemma RoleValueRoundTrip(r: UserRole)
    ensures RoleFromValue(RoleValue(r)) == Some(r)
  {
  }

  /** The default of the `role` column. */
  const DEFAULT_ROLE_VALUE: string := "user"

  /**
   * What the `role` attribute of a User object holds: nothing (a User built
   * in memory without a role), an enumeration member (as assigned before a
   * flush), or the text a `String` column loads.
   */
  datatype RoleAttr = NoRole | EnumRole(member: UserRole) | TextRole(text: string)

  /**
   * The attribute of a user handed over by the resolver: a row loaded from
   * the store holds the column's text, a cache rebuild leaves it unset.
   */
  function LoadedRole(role: Option<UserRole>): (a: RoleAttr)
    ensures role.None? <==> a.NoRole?
    ensures role.Some? ==> a.TextRole? && RoleFromValue(a.text) == role
  {
    match role
    case None => NoRole
    case Some(r) => TextRole(RoleValue(r))
  }

  /** Python's `attr == r`: UserRole subclasses str, so a member equals its value's text. */
  predicate RoleEquals(a: RoleAttr, r: UserRole)
  {
    match a
    case NoRole => false
    case EnumRole(m) => m == r
    case TextRole(s) => s == RoleValue(r)
  }

  /** `attr.value`: only an enumeration member has it; on text or None it raises AttributeError (None here). */
  function RoleValueAttribute(a: RoleAttr): (v: Option<string>)
    ensures v.Some? <==> a.EnumRole?
    ensures v.Some? ==> RoleFromValue(v.value) == Some(a.member)
  {
    match a
    case EnumRole(m) => Some(RoleValue(m))
    case _ => None
  }

  /** On a loaded user, the comparison with a member behaves like comparing the roles. */
  lemma LoadedRoleComparesAsEnum(role: Option<UserRole>, r: UserRole)
    ensures RoleEquals(LoadedRole(role), r) <==> role == Some(r)
  {
  }

  /** A loaded user's role has no `.value`, whatever the role. */
  lemma LoadedRoleHasNoValue(role: Option<UserRole>)
    ensures RoleValueAttribute(LoadedRole(role)).None?
  {
  }

  // ---------------------------------------------------------------- users

  /**
   * A User object. `isActive` and `role` are optional because a User built
   * in memory and never flushed (the cache-hit path of the resolver) has no
   * column defaults applied; every stored row has both. `avatarUrl` stands
   * for an avatar_url column that the declared users table lacks, and that
   * the intended avatar update needs.
   */
  datatype User = User(
    id: int,
    email: string,
    hashedPassword: Digest,
    isActive: Option<bool>,
    isVerified: bool,
    role: Option<UserRole>,
    avatarUrl: Option<string>)

  /** A row as the store holds it: the column defaults have been applied. */
  predicate IsStoredShape(u: User)
  {
    u.isActive.Some? && u.role.Some?
  }

  /**
   * The row stored when a User is inserted with the given fields; a field
   * passed as None takes its column default (is_active true, is_verified
   * false, role "user"). The avatar URL starts unset.
   */
  function InsertedUser(id: int, email: string, hashedPassword: Digest,
                        isVerified: Option<bool>, role: Option<UserRole>): (u: User)
    ensures IsStoredShape(u)
    ensures u.id == id && u.email == email && u.hashedPassword == hashedPassword
    ensures u.isActive == Some(true) && u.avatarUrl == None
    ensures u.isVerified <==> isVerified == Some(true)
    ensures RoleValue(u.role.value) == if role.Some? then RoleValue(role.value) else DEFAULT_ROLE_VALUE
  {
    User(id, email, hashedPassword, Some(true),
         if isVerified.Some? then isVerified.value else false,
         Some(if role.Some? then role.value else USER),
         None)
  }

  // ---------------------------------------------------------------- contacts

  /** The request body for creating or replacing a contact. */
  datatype ContactCreate = ContactCreate(
    firstName: string,
    lastName: string,
    email: string,
    phone: string,
    birthday: string,
    additionalInfo: Option<string> := None)

  /** A ContactCreate built without additional_info has none. */
  lemma AdditionalInfoDefaultsToNone(firstName: string, lastName: string, email: string, phone: string, birthday: string)
    ensures ContactCreate(firstName, lastName, email, phone, birthday).additionalInfo == None
  {
  }

  /** The response body: every ContactCreate field plus the id. */
  datatype ContactResponse = ContactResponse(
    firstName: string,
    lastName: string,
    email: string,
    phone: string,
    birthday: string,
    additionalInfo: Option<string>,
    id: int)

  /** A contact row, owned by exactly one user through `ownerId`. */
  datatype Contact = Contact(
    id: int,
    firstName: string,
    lastName: string,
    email: string,
    phone: string,
    birthday: string,
    additionalInfo: Option<string>,
    ownerId: int)

  /** The ContactCreate fields a contact row carries. */
  function Fields(c: Contact): ContactCreate
  {
    ContactCreate(c.firstName, c.lastName, c.email, c.phone, c.birthday, c.additionalInfo)
  }

  /** The ContactCreate fields a response carries. */
  function ResponseFields(r: ContactResponse): ContactCreate
  {
    ContactCreate(r.firstName, r.lastName, r.email, r.phone, r.birthday, r.additionalInfo)
  }

  /** `Contact(**data.dict(), owner_id=ownerId)` given the id the store assigns. */
  function NewContact(id: int, data: ContactCreate, ownerId: int): (c: Contact)
    ensures Fields(c) == data && c.id == id && c.ownerId == ownerId
  {
    Contact(id, data.firstName, data.lastName, data.email, data.phone, data.birthday,
            data.additionalInfo, ownerId)
  }

  /** The response built from `data` and `id`. */
  function ResponseOf(data: ContactCreate, id: int): (r: ContactResponse)
    ensures ResponseFields(r) == data && r.id == id
  {
    ContactResponse(data.firstName, data.lastName, data.email, data.phone, data.birthday,
                    data.additionalInfo, id)
  }

  /** Serialising a contact row as a ContactResponse (orm_mode). */
  function ToResponse(c: Contact): (r: ContactResponse)
    ensures ResponseFields(r) == Fields(c) && r.id == c.id
  {
    ResponseOf(Fields(c), c.id)
  }

  /** A response is nothing but its ContactCreate fields and its id. */
  lemma ResponseIsCreatePlusId(r: ContactResponse)
    ensures ResponseOf(ResponseFields(r), r.id) == r
  {
  }

  /** Two contacts with the same id and fields give the same response, whoever owns them. */
  lemma ToResponseIgnoresOwner(c: Contact, d: Contact)
    requires c.id == d.id && Fields(c) == Fields(d)
    ensures ToResponse(c) == ToResponse(d)
  {
  }

  // ------------------------------------- the Contact table as declared

  /** The attributes the declared Contact class has (columns and the relationship). */
  const CONTACT_ATTRIBUTES_AS_WRITTEN: set<string> :=
    {"id", "first_name", "last_name", "email", "phone", "birthday",
     "owner_id", "owner", "created_at", "updated_at"}

  /** The same class with the `additional_info` column ContactCreate and ContactResponse expect. */
  const CONTACT_ATTRIBUTES_CORRECTED: set<string> :=
    CONTACT_ATTRIBUTES_AS_WRITTEN + {"additional_info"}

  /**
   * The keyword arguments of `Contact(**contact.dict(), owner_id=...)`, the
   * same for every request: `dict()` lists every declared field, including
   * an optional one the request left unset.
   */
  const CONTACT_CREATE_KEYWORDS: seq<string> :=
    ["first_name", "last_name", "email", "phone", "birthday", "additional_info", "owner_id"]

  /**
   * The declarative constructor sets the keyword arguments in order and
   * raises TypeError at the first one that is not an attribute of the class;
   * None when it accepts them all.
   */
  function FirstInvalidKeyword(attributes: set<string>, keywords: seq<string>): (r: Option<string>)
    ensures r.None? <==> forall i :: 0 <= i < |keywords| ==> keywords[i] in attributes
    ensures r.Some? ==> r.value !in attributes
    ensures r.Some? ==>
      exists i :: 0 <= i < |keywords| && keywords[i] == r.value && forall j :: 0 <= j < i ==> keywords[j] in attributes
  {
    if keywords == [] then None
    else if keywords[0] !in attributes then Some(keywords[0])
    else
      var r := FirstInvalidKeyword(attributes, keywords[1..]);
      assert forall i :: 0 < i < |keywords| ==> keywords[i] == keywords[1..][i - 1];
      r
  }

  /** As declared, the constructor refuses every create request, at `additional_info`. */
  lemma CreateContactRejectedAsWritten()
    ensures FirstInvalidKeyword(CONTACT_ATTRIBUTES_AS_WRITTEN, CONTACT_CREATE_KEYWORDS) == Some("additional_info")
  {
  }

  /** With the additional_info column, every create request is accepted, and the row keeps all its fields. */
  lemma CreateContactAcceptedCorrected(id: int, data: ContactCreate, ownerId: int)
    ensures FirstInvalidKeyword(CONTACT_ATTRIBUTES_CORRECTED, CONTACT_CREATE_KEYWORDS) == None
    ensures ToResponse(NewContact(id, data, ownerId)) == ResponseOf(data, id)
  {
  }
}
