/** Persons and addresses. Their model files (models/person.py, models/address.py)
    are not part of this model: the records below carry the id and the fields the
    handlers in main.py read, every other field is left out, and their validation
    is taken to accept every record. */
module People {
  import opened Wrappers
  import opened Basics

  /** `AddressRead`, reduced to the fields the address filters compare. */
  datatype Address = Address(id: Uuid, street: string, city: string, state: string, postalCode: string, country: string)

  /** `PersonRead`, reduced to the fields the person filters compare. `birthDateText`
      is `str(birth_date)`, the text the birth-date filter compares. */
  datatype Person = Person(
    id: Uuid,
    uni: string,
    firstName: string,
    lastName: string,
    email: string,
    phone: string,
    birthDateText: string,
    addresses: seq<Address>)

  /** `PersonCreate`: a person without its server-generated id. */
  datatype PersonCreate = PersonCreate(
    uni: string,
    firstName: string,
    lastName: string,
    email: string,
    phone: string,
    birthDateText: string,
    addresses: seq<Address>)

  /** `PersonRead(**person.model_dump())` under a fresh id. */
  function PersonFromCreate(p: PersonCreate, id: Uuid): (r: Person)
    ensures r.id == id && r.addresses == p.addresses && r.uni == p.uni
    ensures r.firstName == p.firstName && r.lastName == p.lastName
    ensures r.email == p.email && r.phone == p.phone && r.birthDateText == p.birthDateText
  {
    Person(id, p.uni, p.firstName, p.lastName, p.email, p.phone, p.birthDateText, p.addresses)
  }

  /** `PersonUpdate` as `model_dump(exclude_unset=True)` sees it: a field is sent
      (`Some`) or not (`None`); the update carries no id. */
  datatype PersonUpdate = PersonUpdate(
    uni: Option<string>,
    firstName: Option<string>,
    lastName: Option<string>,
    email: Option<string>,
    phone: Option<string>,
    birthDateText: Option<string>,
    addresses: Option<seq<Address>>)

  /** The value a field holds after an update that may send `sent` over `stored`. */
  function Apply<T>(sent: Option<T>, stored: T): (r: T)
    ensures sent.Some? ==> r == sent.value
    ensures sent.None? ==> r == stored
  {
    if sent.Some? then sent.value else stored
  }

  /** `PersonRead(**stored)` after `stored.update(...)`: sent fields replace stored
      ones, the id and every field not sent keep their values. */
  function MergePerson(p: Person, u: PersonUpdate): (r: Person)
    ensures r.id == p.id
    ensures r.uni == Apply(u.uni, p.uni)
    ensures r.firstName == Apply(u.firstName, p.firstName) && r.lastName == Apply(u.lastName, p.lastName)
    ensures r.email == Apply(u.email, p.email) && r.phone == Apply(u.phone, p.phone)
    ensures r.birthDateText == Apply(u.birthDateText, p.birthDateText) && r.addresses == Apply(u.addresses, p.addresses)
  {
    Person(p.id, Apply(u.uni, p.uni), Apply(u.firstName, p.firstName), Apply(u.lastName, p.lastName),
           Apply(u.email, p.email), Apply(u.phone, p.phone), Apply(u.birthDateText, p.birthDateText),
           Apply(u.addresses, p.addresses))
  }

  /** `AddressUpdate` as `model_dump(exclude_unset=True)` sees it; it carries no id. */
  datatype AddressUpdate = AddressUpdate(
    street: Option<string>,
    city: Option<string>,
    state: Option<string>,
    postalCode: Option<string>,
    country: Option<string>)

  /** `AddressRead(**stored)` after `stored.update(...)`. */
  function MergeAddress(a: Address, u: AddressUpdate): (r: Address)
    ensures r.id == a.id
    ensures r.street == Apply(u.street, a.street) && r.city == Apply(u.city, a.city)
    ensures r.state == Apply(u.state, a.state) && r.postalCode == Apply(u.postalCode, a.postalCode)
    ensures r.country == Apply(u.country, a.country)
  {
    Address(a.id, Apply(u.street, a.street), Apply(u.city, a.city), Apply(u.state, a.state),
            Apply(u.postalCode, a.postalCode), Apply(u.country, a.country))
  }

  /** Applying the same person update twice has the effect of applying it once. */
  lemma MergePersonIdempotent(p: Person, u: PersonUpdate)
    ensures MergePerson(MergePerson(p, u), u) == MergePerson(p, u)
  {
  }
}
