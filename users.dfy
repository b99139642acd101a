/** The `User` record of the dashboard store and the JavaScript truthiness
    rules that the aggregation applies to its optional fields. */
module Users {
  import opened Wrappers

  datatype Hair = Hair(color: string, kind: string)

  datatype Address = Address(city: string, state: string, country: string)

  /** `company` as delivered by the API; every part of it may be missing. */
  datatype Company = Company(name: Option<string>, department: Option<string>, title: Option<string>)

  /** One user as kept in `users` and `allUsers`. Numbers of the source
      (`number`) are exact reals here. */
  datatype User = User(
    id: int,
    name: string,
    username: string,
    email: string,
    phone: string,
    website: string,
    avatar: Option<string>,
    age: Option<real>,
    gender: Option<string>,
    birthDate: Option<string>,
    bloodGroup: Option<string>,
    height: Option<real>,
    weight: Option<real>,
    eyeColor: Option<string>,
    hair: Option<Hair>,
    address: Option<Address>,
    company: Option<Company>)

  /** A number is truthy when present and not zero. */
  predicate TruthyNumber(n: Option<real>) {
    n.Some? && n.value != 0.0
  }

  /** A string is truthy when present and not empty. */
  predicate TruthyString(s: Option<string>) {
    s.Some? && s.value != ""
  }

  /** `n || 0` */
  function NumberOrZero(n: Option<real>): (r: real)
    ensures TruthyNumber(n) ==> r == n.value
    ensures !TruthyNumber(n) ==> r == 0.0
  {
    if n.Some? then n.value else 0.0
  }

  /** `s || fallback` */
  function StringOr(s: Option<string>, fallback: string): (r: string)
    ensures TruthyString(s) ==> r == s.value
    ensures !TruthyString(s) ==> r == fallback
  {
    if TruthyString(s) then s.value else fallback
  }

  /** `user.company?.department`: undefined when there is no company, the
      company's department otherwise. */
  function Department(u: User): (d: Option<string>)
    ensures u.company.None? ==> d.None?
    ensures u.company.Some? ==> d == u.company.value.department
  {
    if u.company.Some? then u.company.value.department else None
  }
}
