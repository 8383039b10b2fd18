/** The in-memory "databases" of main.py and the CRUD handlers over them. Each
    store is a Python dict from id to record; the handlers look records up by id,
    answer 404 for a missing one, and replace, insert or delete entries in place. */
module Api {
  import opened Wrappers
  import opened Basics
  import opened OrderedDict
  import opened Sequences
  import BookModel
  import CourseModel
  import People
  import Queries

  /** The error responses the handlers produce: an `HTTPException` with its status
      and detail, or the server error a failed re-validation of a merged record
      turns into. */
  datatype HttpError = NotFound(detail: string) | BadRequest(detail: string) | InternalError(detail: string)

  /** The four module-level dicts `persons`, `addresses`, `books` and `courses`. */
  class Store {
    var persons: Dict<Uuid, People.Person>
    var addresses: Dict<Uuid, People.Address>
    var books: Dict<Uuid, BookModel.Book>
    var courses: Dict<Uuid, CourseModel.Course>

    /** Every record is stored under its own id, and every book and course meets its
        field constraints. */
    ghost predicate Valid()
      reads this
    {
      && persons.Valid() && addresses.Valid() && books.Valid() && courses.Valid()
      && (forall k :: k in persons.entries ==> persons.entries[k].id == k)
      && (forall k :: k in addresses.entries ==> addresses.entries[k].id == k)
      && (forall k :: k in books.entries ==> books.entries[k].id == k && books.entries[k].Valid())
      && (forall k :: k in courses.entries ==> courses.entries[k].id == k && courses.entries[k].Valid())
    }

    /** The stores at start-up: all empty. */
    constructor ()
      ensures Valid()
      ensures persons.entries == map[] && addresses.entries == map[]
      ensures books.entries == map[] && courses.entries == map[]
    {
      persons, addresses := Empty(), Empty();
      books, courses := Empty(), Empty();
    }

    // ---------------------------------------------------------------- books

    /** `GET /books/{book_id}`. */
    function GetBook(id: Uuid): (r: Result<BookModel.Book, HttpError>)
      reads this
      ensures r.Err? <==> id !in books.entries
      ensures r.Ok? ==> r.value == books.entries[id]
      ensures r.Err? ==> r.error == NotFound("Book not found")
      ensures Valid() && r.Ok? ==> r.value.id == id && r.value.Valid()
    {
      if id !in books.entries then Err(NotFound("Book not found")) else Ok(books.entries[id])
    }

    /** `GET /books`: the stored books that pass every given filter, in insertion order. */
    function ListBooks(q: Queries.BookQuery): (r: seq<BookModel.Book>)
      requires Valid()
      reads this
      ensures forall b :: b in r <==> b.id in books.entries && books.entries[b.id] == b && q.Matches(b)
      ensures IsSubsequence(r, books.Values())
    {
      var r := Queries.SelectBooks(books.Values(), q);
      Queries.SelectBooksMeaning(books.Values(), q);
      forall b ensures b in books.Values() <==> b.id in books.entries && books.entries[b.id] == b {
        ValuesAreStored(books, b);
      }
      r
    }

    /** `POST /books`: the new book is stored under the id `uuid4` draws (`id`). */
    method CreateBook(input: BookModel.BookCreate, id: Uuid) returns (r: BookModel.Book)
      requires Valid() && input.Valid()
      modifies this
      ensures Valid()
      ensures r == BookModel.BookFromCreate(input, id) && r.Valid()
      ensures books == old(books).Put(id, r)
      ensures GetBook(id) == Ok(r)
      ensures persons == old(persons) && addresses == old(addresses) && courses == old(courses)
    {
      r := BookModel.BookFromCreate(input, id);
      books := books.Put(id, r);
    }

    /** `PATCH /books/{book_id}`: the sent fields overwrite the stored ones and the
        result is validated again; on any failure the store is left as it was. */
    method UpdateBook(id: Uuid, u: BookModel.BookUpdate) returns (r: Result<BookModel.Book, HttpError>)
      requires Valid()
      modifies this
      ensures Valid()
      ensures r.Ok? <==> id in old(books.entries) && !u.ClearsRequired()
      ensures id !in old(books.entries) ==> r == Err(NotFound("Book not found"))
      ensures r.Err? ==> books == old(books)
      ensures r.Ok? ==> Ok(r.value) == BookModel.MergeBook(old(books.entries[id]), u)
      ensures r.Ok? ==> books == old(books).Put(id, r.value) && GetBook(id) == r
      ensures persons == old(persons) && addresses == old(addresses) && courses == old(courses)
    {
      if id !in books.entries {
        return Err(NotFound("Book not found"));
      }
      var merged := BookModel.MergeBook(books.entries[id], u);
      if merged.Err? {
        return Err(InternalError(merged.error));
      }
      books := books.Put(id, merged.value);
      r := Ok(merged.value);
    }

    /** `DELETE /books/{book_id}`. */
    method DeleteBook(id: Uuid) returns (r: Result<string, HttpError>)
      requires Valid()
      modifies this
      ensures Valid()
      ensures r.Ok? <==> id in old(books.entries)
      ensures r.Err? ==> r.error == NotFound("Book not found") && books == old(books)
      ensures r.Ok? ==> r.value == "Book deleted successfully" && books == old(books).Remove(id)
      ensures GetBook(id).Err?
      ensures persons == old(persons) && addresses == old(addresses) && courses == old(courses)
    {
      if id !in books.entries {
        return Err(NotFound("Book not found"));
      }
      books := books.Remove(id);
      r := Ok("Book deleted successfully");
    }

    // -------------------------------------------------------------- courses

    /** `GET /courses/{course_id}`. */
    function GetCourse(id: Uuid): (r: Result<CourseModel.Course, HttpError>)
      reads this
      ensures r.Err? <==> id !in courses.entries
      ensures r.Ok? ==> r.value == courses.entries[id]
      ensures r.Err? ==> r.error == NotFound("Course not found")
      ensures Valid() && r.Ok? ==> r.value.id == id && r.value.Valid()
    {
      if id !in courses.entries then Err(NotFound("Course not found")) else Ok(courses.entries[id])
    }

    /** `GET /courses`. */
    function ListCourses(q: Queries.CourseQuery): (r: seq<CourseModel.Course>)
      requires Valid()
      reads this
      ensures forall c :: c in r <==> c.id in courses.entries && courses.entries[c.id] == c && q.Matches(c)
      ensures IsSubsequence(r, courses.Values())
    {
      var r := Queries.SelectCourses(courses.Values(), q);
      Queries.SelectCoursesMeaning(courses.Values(), q);
      forall c ensures c in courses.Values() <==> c.id in courses.entries && courses.entries[c.id] == c {
        ValuesAreStored(courses, c);
      }
      r
    }

    /** `POST /courses`. */
    method CreateCourse(input: CourseModel.CourseCreate, id: Uuid) returns (r: CourseModel.Course)
      requires Valid() && input.Valid()
      modifies this
      ensures Valid()
      ensures r == CourseModel.CourseFromCreate(input, id) && r.Valid()
      ensures courses == old(courses).Put(id, r)
      ensures GetCourse(id) == Ok(r)
      ensures persons == old(persons) && addresses == old(addresses) && books == old(books)
    {
      r := CourseModel.CourseFromCreate(input, id);
      courses := courses.Put(id, r);
    }

    /** `PATCH /courses/{course_id}`. The update request has passed its own
        validation, so the merge can only fail on a null sent for a required field. */
    method UpdateCourse(id: Uuid, u: CourseModel.CourseUpdate) returns (r: Result<CourseModel.Course, HttpError>)
      requires Valid() && u.Valid()
      modifies this
      ensures Valid()
      ensures r.Ok? <==> id in old(courses.entries) && !u.ClearsRequired()
      ensures id !in old(courses.entries) ==> r == Err(NotFound("Course not found"))
      ensures r.Err? ==> courses == old(courses)
      ensures r.Ok? ==> Ok(r.value) == CourseModel.MergeCourse(old(courses.entries[id]), u)
      ensures r.Ok? ==> courses == old(courses).Put(id, r.value) && GetCourse(id) == r
      ensures persons == old(persons) && addresses == old(addresses) && books == old(books)
    {
      if id !in courses.entries {
        return Err(NotFound("Course not found"));
      }
      CourseModel.MergeSucceeds(courses.entries[id], u);
      var merged := CourseModel.MergeCourse(courses.entries[id], u);
      if merged.Err? {
        return Err(InternalError(merged.error));
      }
      courses := courses.Put(id, merged.value);
      r := Ok(merged.value);
    }

    /** `DELETE /courses/{course_id}`. */
    method DeleteCourse(id: Uuid) returns (r: Result<string, HttpError>)
      requires Valid()
      modifies this
      ensures Valid()
      ensures r.Ok? <==> id in old(courses.entries)
      ensures r.Err? ==> r.error == NotFound("Course not found") && courses == old(courses)
      ensures r.Ok? ==> r.value == "Course deleted successfully" && courses == old(courses).Remove(id)
      ensures GetCourse(id).Err?
      ensures persons == old(persons) && addresses == old(addresses) && books == old(books)
    {
      if id !in courses.entries {
        return Err(NotFound("Course not found"));
      }
      courses := courses.Remove(id);
      r := Ok("Course deleted successfully");
    }

    // ------------------------------------------------------------ addresses

    /** `GET /addresses/{address_id}`. */
    function GetAddress(id: Uuid): (r: Result<People.Address, HttpError>)
      reads this
      ensures r.Err? <==> id !in addresses.entries
      ensures r.Ok? ==> r.value == addresses.entries[id]
      ensures r.Err? ==> r.error == NotFound("Address not found")
      ensures Valid() && r.Ok? ==> r.value.id == id
    {
      if id !in addresses.entries then Err(NotFound("Address not found")) else Ok(addresses.entries[id])
    }

    /** `GET /addresses`. */
    function ListAddresses(q: Queries.AddressQuery): (r: seq<People.Address>)
      requires Valid()
      reads this
      ensures forall a :: a in r <==> a.id in addresses.entries && addresses.entries[a.id] == a && q.Matches(a)
      ensures IsSubsequence(r, addresses.Values())
    {
      var r := Queries.SelectAddresses(addresses.Values(), q);
      Queries.SelectAddressesMeaning(addresses.Values(), q);
      forall a ensures a in addresses.Values() <==> a.id in addresses.entries && addresses.entries[a.id] == a {
        ValuesAreStored(addresses, a);
      }
      r
    }

    /** `POST /addresses`: the client chooses the id; an id already in use is
        refused with 400 and nothing changes. */
    method CreateAddress(input: People.Address) returns (r: Result<People.Address, HttpError>)
      requires Valid()
      modifies this
      ensures Valid()
      ensures r.Err? <==> input.id in old(addresses.entries)
      ensures r.Err? ==> r.error == BadRequest("Address with this ID already exists") && addresses == old(addresses)
      ensures r.Ok? ==> r.value == input && addresses == old(addresses).Put(input.id, input)
      ensures r.Ok? ==> GetAddress(input.id) == Ok(input)
      ensures persons == old(persons) && books == old(books) && courses == old(courses)
    {
      if input.id in addresses.entries {
        return Err(BadRequest("Address with this ID already exists"));
      }
      addresses := addresses.Put(input.id, input);
      r := Ok(input);
    }

    /** `PATCH /addresses/{address_id}`. */
    method UpdateAddress(id: Uuid, u: People.AddressUpdate) returns (r: Result<People.Address, HttpError>)
      requires Valid()
      modifies this
      ensures Valid()
      ensures r.Ok? <==> id in old(addresses.entries)
      ensures r.Err? ==> r.error == NotFound("Address not found") && addresses == old(addresses)
      ensures r.Ok? ==> r.value == People.MergeAddress(old(addresses.entries[id]), u)
      ensures r.Ok? ==> addresses == old(addresses).Put(id, r.value) && GetAddress(id) == r
      ensures persons == old(persons) && books == old(books) && courses == old(courses)
    {
      if id !in addresses.entries {
        return Err(NotFound("Address not found"));
      }
      var merged := People.MergeAddress(addresses.entries[id], u);
      addresses := addresses.Put(id, merged);
      r := Ok(merged);
    }

    // -------------------------------------------------------------- persons

    /** `GET /persons/{person_id}`. */
    function GetPerson(id: Uuid): (r: Result<People.Person, HttpError>)
      reads this
      ensures r.Err? <==> id !in persons.entries
      ensures r.Ok? ==> r.value == persons.entries[id]
      ensures r.Err? ==> r.error == NotFound("Person not found")
      ensures Valid() && r.Ok? ==> r.value.id == id
    {
      if id !in persons.entries then Err(NotFound("Person not found")) else Ok(persons.entries[id])
    }

    /** `GET /persons`. */
    function ListPersons(q: Queries.PersonQuery): (r: seq<People.Person>)
      requires Valid()
      reads this
      ensures forall p :: p in r <==> p.id in persons.entries && persons.entries[p.id] == p && q.Matches(p)
      ensures IsSubsequence(r, persons.Values())
    {
      var r := Queries.SelectPersons(persons.Values(), q);
      Queries.SelectPersonsMeaning(persons.Values(), q);
      forall p ensures p in persons.Values() <==> p.id in persons.entries && persons.entries[p.id] == p {
        ValuesAreStored(persons, p);
      }
      r
    }

    /** `POST /persons`: each person gets a fresh server-side id (`id`). */
    method CreatePerson(input: People.PersonCreate, id: Uuid) returns (r: People.Person)
      requires Valid()
      modifies this
      ensures Valid()
      ensures r == People.PersonFromCreate(input, id)
      ensures persons == old(persons).Put(id, r)
      ensures GetPerson(id) == Ok(r)
      ensures addresses == old(addresses) && books == old(books) && courses == old(courses)
    {
      r := People.PersonFromCreate(input, id);
      persons := persons.Put(id, r);
    }

    /** `PATCH /persons/{person_id}`. */
    method UpdatePerson(id: Uuid, u: People.PersonUpdate) returns (r: Result<People.Person, HttpError>)
      requires Valid()
      modifies this
      ensures Valid()
      ensures r.Ok? <==> id in old(persons.entries)
      ensures r.Err? ==> r.error == NotFound("Person not found") && persons == old(persons)
      ensures r.Ok? ==> r.value == People.MergePerson(old(persons.entries[id]), u)
      ensures r.Ok? ==> persons == old(persons).Put(id, r.value) && GetPerson(id) == r
      ensures addresses == old(addresses) && books == old(books) && courses == old(courses)
    {
      if id !in persons.entries {
        return Err(NotFound("Person not found"));
      }
      var merged := People.MergePerson(persons.entries[id], u);
      persons := persons.Put(id, merged);
      r := Ok(merged);
    }
  }
}
