/**
 * The user DTOs (src/domain/user/dto/user.dto.ts): the update schema and the public projection
 * of a user row.
 */
module UserDto {
  import opened Stores

  /** One zod issue: the field it is reported on and its message. */
  datatype Issue = Issue(path: string, message: string)

  /** `UpdateUserDto`. */
  datatype UpdateUserDto = UpdateUserDto(name: string)

  /** `UpdateUserSchema`: `name` is a string of 2 to 150 characters (zod's default messages). */
  function UpdateUserIssues(dto: UpdateUserDto): (r: seq<Issue>)
    ensures r == [] <==> 2 <= |dto.name| <= 150
    ensures forall i :: 0 <= i < |r| ==> r[i].path == "name"
    ensures |dto.name| < 2 ==> r == [Issue("name", "String must contain at least 2 character(s)")]
    ensures |dto.name| > 150 ==> r == [Issue("name", "String must contain at most 150 character(s)")]
  {
    (if |dto.name| < 2 then [Issue("name", "String must contain at least 2 character(s)")] else [])
    + (if |dto.name| > 150 then [Issue("name", "String must contain at most 150 character(s)")] else [])
  }

  /** `UserResponse`: the fields of a user that leave the service. */
  datatype UserResponse = UserResponse(
    id: string,
    name: string,
    email: string,
    createdAt: string,
    updatedAt: string,
    loginAt: Option<Time>,
    emailVerified: Option<Time>)

  /** `toUserResponse`: copies seven fields; the password and the picture path are dropped. */
  function ToUserResponse(u: UserRow): (r: UserResponse)
    ensures r.id == u.id && r.name == u.name && r.email == u.email
    ensures r.createdAt == u.createdAt && r.updatedAt == u.updatedAt
    ensures r.loginAt == u.loginAt && r.emailVerified == u.emailVerified
  {
    UserResponse(u.id, u.name, u.email, u.createdAt, u.updatedAt, u.loginAt, u.emailVerified)
  }

  /** Two rows that differ only in `password` and `profilePicture` project to the same response. */
  lemma ResponseIgnoresSecrets(u: UserRow, password: Option<string>, picture: Option<string>)
    ensures ToUserResponse(u.(password := password, profilePicture := picture)) == ToUserResponse(u)
  {
  }

  /** The projection loses only the password and the picture: it is injective on everything else. */
  lemma ResponseDeterminesPublicFields(u: UserRow, v: UserRow)
    requires ToUserResponse(u) == ToUserResponse(v)
    ensures u.(password := v.password, profilePicture := v.profilePicture) == v
  {
  }
}
