/** The records the client exchanges with the backend and keeps in its session. */
module Types {
  import opened Wrappers

  datatype Role = Admin | Vendor | Customer

  /** The wire name of a role. */
  function RoleName(r: Role): string
  {
    match r
    case Admin => "admin"
    case Vendor => "vendor"
    case Customer => "customer"
  }

  function ParseRole(s: string): (r: Option<Role>)
    ensures r.Some? ==> RoleName(r.value) == s
  {
    if s == "admin" then Some(Admin)
    else if s == "vendor" then Some(Vendor)
    else if s == "customer" then Some(Customer)
    else None
  }

  lemma RoleRoundTrip(r: Role)
    ensures ParseRole(RoleName(r)) == Some(r)
  {
  }

  datatype User = User(id: int, username: string, email: string, phone: Option<string>, role: Role, isStaff: bool)

  datatype AuthTokens = AuthTokens(access: string, refresh: string)

  /** A catalogue entry; the fractional `daily_rate` and `price` are not modelled. */
  datatype Movie = Movie(id: int, title: string, genre: string, releaseYear: Option<int>)

  datatype Rental = Rental(id: int, movieTitle: string, userUsername: string, rentedAt: string, status: string)

  datatype Inventory = Inventory(id: int, movie: int, movieTitle: string, totalCopies: int, availableCopies: int, rentedOut: int)

  /** One page of a paginated list endpoint. */
  datatype Paginated<T> = Paginated(count: nat, next: Option<string>, previous: Option<string>, results: seq<T>)

  datatype LoginCredentials = LoginCredentials(username: string, password: string)

  datatype RegisterData = RegisterData(username: string, email: string, password: string, phone: Option<string>)

  /** Movie form fields; the fractional `daily_rate` and `price` are not modelled. */
  datatype MovieFormData = MovieFormData(title: string, genre: string, releaseYear: Option<int>)

  /** `Partial<MovieFormData>`: every field may be left out. */
  datatype MoviePatch = MoviePatch(title: Option<string>, genre: Option<string>, releaseYear: Option<int>)

  datatype PasswordChangeData = PasswordChangeData(oldPassword: string, newPassword: string)

  datatype ProfileUpdateData = ProfileUpdateData(firstName: Option<string>, lastName: Option<string>, phone: Option<string>)
}
