/** The list endpoints of main.py: each starts from `list(store.values())` and
    narrows it by one comprehension per query parameter that was given. The result
    is exactly the stored records that pass every given filter, in insertion order;
    a request without parameters lists everything. */
module Queries {
  import opened Wrappers
  import opened Text
  import opened Sequences
  import BookModel
  import CourseModel
  import People

  /** Case-insensitive substring test, `needle.lower() in hay.lower()`. */
  predicate MentionsIgnoringCase(hay: string, needle: string)
  {
    Contains(Lower(hay), Lower(needle))
  }

  /** Query parameters of `GET /books`; `None` is a parameter not given. */
  datatype BookQuery = BookQuery(
    isbn: Option<string>,
    title: Option<string>,
    author: Option<string>,
    publisher: Option<string>,
    genre: Option<string>,
    available: Option<bool>)
  {
    predicate IsbnOk(b: BookModel.Book) { isbn.Some? ==> b.isbn == isbn.value }
    predicate TitleOk(b: BookModel.Book) { title.Some? ==> MentionsIgnoringCase(b.title, title.value) }
    predicate AuthorOk(b: BookModel.Book) { author.Some? ==> MentionsIgnoringCase(b.author, author.value) }
    predicate PublisherOk(b: BookModel.Book) { publisher.Some? ==> MentionsIgnoringCase(b.publisher, publisher.value) }
    /** A book without a genre, or with the empty genre (falsy in Python), never matches a genre filter. */
    predicate GenreOk(b: BookModel.Book)
    {
      genre.Some? ==> b.genre.Some? && b.genre.value != "" && MentionsIgnoringCase(b.genre.value, genre.value)
    }
    predicate AvailableOk(b: BookModel.Book) { available.Some? ==> b.available == available.value }

    /** The book passes every filter that was given. */
    predicate Matches(b: BookModel.Book)
    {
      IsbnOk(b) && TitleOk(b) && AuthorOk(b) && PublisherOk(b) && GenreOk(b) && AvailableOk(b)
    }
  }

  /** The chain of comprehensions of `list_books`, one link per parameter. */
  function SelectBooks(books: seq<BookModel.Book>, q: BookQuery): (r: seq<BookModel.Book>)
    ensures |r| <= |books|
  {
    var r1 := Narrow(books, q.isbn.Some?, q.IsbnOk);
    var r2 := Narrow(r1, q.title.Some?, q.TitleOk);
    var r3 := Narrow(r2, q.author.Some?, q.AuthorOk);
    var r4 := Narrow(r3, q.publisher.Some?, q.PublisherOk);
    var r5 := Narrow(r4, q.genre.Some?, q.GenreOk);
    Narrow(r5, q.available.Some?, q.AvailableOk)
  }

  /** The chain is a single comprehension over the conjunction of the given filters. */
  lemma SelectBooksIsFilter(books: seq<BookModel.Book>, q: BookQuery)
    ensures SelectBooks(books, q) == Filter(books, q.Matches)
  {
    var s := books;
    var c1 := q.IsbnOk;
    var c2 := b => c1(b) && q.TitleOk(b);
    var c3 := b => c2(b) && q.AuthorOk(b);
    var c4 := b => c3(b) && q.PublisherOk(b);
    var c5 := b => c4(b) && q.GenreOk(b);
    var c6 := b => c5(b) && q.AvailableOk(b);
    NarrowAlways(s, q.isbn.Some?, q.IsbnOk);
    NarrowFilter(s, c1, q.title.Some?, q.TitleOk, c2);
    NarrowFilter(s, c2, q.author.Some?, q.AuthorOk, c3);
    NarrowFilter(s, c3, q.publisher.Some?, q.PublisherOk, c4);
    NarrowFilter(s, c4, q.genre.Some?, q.GenreOk, c5);
    NarrowFilter(s, c5, q.available.Some?, q.AvailableOk, c6);
    FilterCongruent(s, c6, q.Matches);
  }

  /** `list_books` returns exactly the stored books that match, in stored order. */
  lemma SelectBooksMeaning(books: seq<BookModel.Book>, q: BookQuery)
    ensures forall b :: b in SelectBooks(books, q) <==> b in books && q.Matches(b)
    ensures IsSubsequence(SelectBooks(books, q), books)
    ensures q == BookQuery(None, None, None, None, None, None) ==> SelectBooks(books, q) == books
  {
    SelectBooksIsFilter(books, q);
    forall b ensures b in SelectBooks(books, q) <==> b in books && q.Matches(b) {
      FilterMembers(books, q.Matches, b);
    }
    FilterIsSubsequence(books, q.Matches);
    if q == BookQuery(None, None, None, None, None, None) {
      FilterAll(books, q.Matches);
    }
  }

  /** Query parameters of `GET /courses`; the semester is compared as its string value. */
  datatype CourseQuery = CourseQuery(
    courseCode: Option<string>,
    title: Option<string>,
    instructor: Option<string>,
    semester: Option<string>,
    year: Option<int>,
    credits: Option<int>,
    active: Option<bool>)
  {
    predicate CodeOk(c: CourseModel.Course) { courseCode.Some? ==> c.courseCode == courseCode.value }
    predicate TitleOk(c: CourseModel.Course) { title.Some? ==> MentionsIgnoringCase(c.title, title.value) }
    predicate InstructorOk(c: CourseModel.Course)
    {
      instructor.Some? ==> MentionsIgnoringCase(c.instructor, instructor.value)
    }
    predicate SemesterOk(c: CourseModel.Course)
    {
      semester.Some? ==> CourseModel.SemesterValue(c.semester) == semester.value
    }
    predicate YearOk(c: CourseModel.Course) { year.Some? ==> c.year == year.value }
    predicate CreditsOk(c: CourseModel.Course) { credits.Some? ==> c.credits == credits.value }
    predicate ActiveOk(c: CourseModel.Course) { active.Some? ==> c.active == active.value }

    predicate Matches(c: CourseModel.Course)
    {
      CodeOk(c) && TitleOk(c) && InstructorOk(c) && SemesterOk(c) && YearOk(c) && CreditsOk(c) && ActiveOk(c)
    }
  }

  /** The chain of comprehensions of `list_courses`. */
  function SelectCourses(courses: seq<CourseModel.Course>, q: CourseQuery): (r: seq<CourseModel.Course>)
    ensures |r| <= |courses|
  {
    var r1 := Narrow(courses, q.courseCode.Some?, q.CodeOk);
    var r2 := Narrow(r1, q.title.Some?, q.TitleOk);
    var r3 := Narrow(r2, q.instructor.Some?, q.InstructorOk);
    var r4 := Narrow(r3, q.semester.Some?, q.SemesterOk);
    var r5 := Narrow(r4, q.year.Some?, q.YearOk);
    var r6 := Narrow(r5, q.credits.Some?, q.CreditsOk);
    Narrow(r6, q.active.Some?, q.ActiveOk)
  }

  lemma SelectCoursesIsFilter(courses: seq<CourseModel.Course>, q: CourseQuery)
    ensures SelectCourses(courses, q) == Filter(courses, q.Matches)
  {
    var s := courses;
    var c1 := q.CodeOk;
    var c2 := c => c1(c) && q.TitleOk(c);
    var c3 := c => c2(c) && q.InstructorOk(c);
    var c4 := c => c3(c) && q.SemesterOk(c);
    var c5 := c => c4(c) && q.YearOk(c);
    var c6 := c => c5(c) && q.CreditsOk(c);
    var c7 := c => c6(c) && q.ActiveOk(c);
    NarrowAlways(s, q.courseCode.Some?, q.CodeOk);
    NarrowFilter(s, c1, q.title.Some?, q.TitleOk, c2);
    NarrowFilter(s, c2, q.instructor.Some?, q.InstructorOk, c3);
    NarrowFilter(s, c3, q.semester.Some?, q.SemesterOk, c4);
    NarrowFilter(s, c4, q.year.Some?, q.YearOk, c5);
    NarrowFilter(s, c5, q.credits.Some?, q.CreditsOk, c6);
    NarrowFilter(s, c6, q.active.Some?, q.ActiveOk, c7);
    FilterCongruent(s, c7, q.Matches);
  }

  /** `list_courses` returns exactly the stored courses that match, in stored order. */
  lemma SelectCoursesMeaning(courses: seq<CourseModel.Course>, q: CourseQuery)
    ensures forall c :: c in SelectCourses(courses, q) <==> c in courses && q.Matches(c)
    ensures IsSubsequence(SelectCourses(courses, q), courses)
    ensures q == CourseQuery(None, None, None, None, None, None, None) ==> SelectCourses(courses, q) == courses
  {
    SelectCoursesIsFilter(courses, q);
    forall c ensures c in SelectCourses(courses, q) <==> c in courses && q.Matches(c) {
      FilterMembers(courses, q.Matches, c);
    }
    FilterIsSubsequence(courses, q.Matches);
    if q == CourseQuery(None, None, None, None, None, None, None) {
      FilterAll(courses, q.Matches);
    }
  }

  /** Query parameters of `GET /addresses`: exact comparisons. */
  datatype AddressQuery = AddressQuery(
    street: Option<string>,
    city: Option<string>,
    state: Option<string>,
    postalCode: Option<string>,
    country: Option<string>)
  {
    predicate StreetOk(a: People.Address) { street.Some? ==> a.street == street.value }
    predicate CityOk(a: People.Address) { city.Some? ==> a.city == city.value }
    predicate StateOk(a: People.Address) { state.Some? ==> a.state == state.value }
    predicate PostalCodeOk(a: People.Address) { postalCode.Some? ==> a.postalCode == postalCode.value }
    predicate CountryOk(a: People.Address) { country.Some? ==> a.country == country.value }

    predicate Matches(a: People.Address)
    {
      StreetOk(a) && CityOk(a) && StateOk(a) && PostalCodeOk(a) && CountryOk(a)
    }
  }

  /** The chain of comprehensions of `list_addresses`. */
  function SelectAddresses(addresses: seq<People.Address>, q: AddressQuery): (r: seq<People.Address>)
    ensures |r| <= |addresses|
  {
    var r1 := Narrow(addresses, q.street.Some?, q.StreetOk);
    var r2 := Narrow(r1, q.city.Some?, q.CityOk);
    var r3 := Narrow(r2, q.state.Some?, q.StateOk);
    var r4 := Narrow(r3, q.postalCode.Some?, q.PostalCodeOk);
    Narrow(r4, q.country.Some?, q.CountryOk)
  }

  lemma SelectAddressesIsFilter(addresses: seq<People.Address>, q: AddressQuery)
    ensures SelectAddresses(addresses, q) == Filter(addresses, q.Matches)
  {
    var s := addresses;
    var c1 := q.StreetOk;
    var c2 := a => c1(a) && q.CityOk(a);
    var c3 := a => c2(a) && q.StateOk(a);
    var c4 := a => c3(a) && q.PostalCodeOk(a);
    var c5 := a => c4(a) && q.CountryOk(a);
    NarrowAlways(s, q.street.Some?, q.StreetOk);
    NarrowFilter(s, c1, q.city.Some?, q.CityOk, c2);
    NarrowFilter(s, c2, q.state.Some?, q.StateOk, c3);
    NarrowFilter(s, c3, q.postalCode.Some?, q.PostalCodeOk, c4);
    NarrowFilter(s, c4, q.country.Some?, q.CountryOk, c5);
    FilterCongruent(s, c5, q.Matches);
  }

  /** `list_addresses` returns exactly the stored addresses that match, in stored order. */
  lemma SelectAddressesMeaning(addresses: seq<People.Address>, q: AddressQuery)
    ensures forall a :: a in SelectAddresses(addresses, q) <==> a in addresses && q.Matches(a)
    ensures IsSubsequence(SelectAddresses(addresses, q), addresses)
    ensures q == AddressQuery(None, None, None, None, None) ==> SelectAddresses(addresses, q) == addresses
  {
    SelectAddressesIsFilter(addresses, q);
    forall a ensures a in SelectAddresses(addresses, q) <==> a in addresses && q.Matches(a) {
      FilterMembers(addresses, q.Matches, a);
    }
    FilterIsSubsequence(addresses, q.Matches);
    if q == AddressQuery(None, None, None, None, None) {
      FilterAll(addresses, q.Matches);
    }
  }

  /** `any(addr.city == city for addr in p.addresses)`. */
  predicate LivesInCity(p: People.Person, city: string)
  {
    exists a :: a in p.addresses && a.city == city
  }

  /** `any(addr.country == country for addr in p.addresses)`. */
  predicate LivesInCountry(p: People.Person, country: string)
  {
    exists a :: a in p.addresses && a.country == country
  }

  /** Query parameters of `GET /persons`: exact comparisons on the person's own
      fields, the birth date as its text, and city and country against any of the
      person's addresses. */
  datatype PersonQuery = PersonQuery(
    uni: Option<string>,
    firstName: Option<string>,
    lastName: Option<string>,
    email: Option<string>,
    phone: Option<string>,
    birthDate: Option<string>,
    city: Option<string>,
    country: Option<string>)
  {
    predicate UniOk(p: People.Person) { uni.Some? ==> p.uni == uni.value }
    predicate FirstNameOk(p: People.Person) { firstName.Some? ==> p.firstName == firstName.value }
    predicate LastNameOk(p: People.Person) { lastName.Some? ==> p.lastName == lastName.value }
    predicate EmailOk(p: People.Person) { email.Some? ==> p.email == email.value }
    predicate PhoneOk(p: People.Person) { phone.Some? ==> p.phone == phone.value }
    predicate BirthDateOk(p: People.Person) { birthDate.Some? ==> p.birthDateText == birthDate.value }
    predicate CityOk(p: People.Person) { city.Some? ==> LivesInCity(p, city.value) }
    predicate CountryOk(p: People.Person) { country.Some? ==> LivesInCountry(p, country.value) }

    predicate Matches(p: People.Person)
    {
      && UniOk(p) && FirstNameOk(p) && LastNameOk(p) && EmailOk(p) && PhoneOk(p) && BirthDateOk(p)
      && CityOk(p) && CountryOk(p)
    }
  }

  /** The chain of comprehensions of `list_persons`, the address filters last. */
  function SelectPersons(persons: seq<People.Person>, q: PersonQuery): (r: seq<People.Person>)
    ensures |r| <= |persons|
  {
    var r1 := Narrow(persons, q.uni.Some?, q.UniOk);
    var r2 := Narrow(r1, q.firstName.Some?, q.FirstNameOk);
    var r3 := Narrow(r2, q.lastName.Some?, q.LastNameOk);
    var r4 := Narrow(r3, q.email.Some?, q.EmailOk);
    var r5 := Narrow(r4, q.phone.Some?, q.PhoneOk);
    var r6 := Narrow(r5, q.birthDate.Some?, q.BirthDateOk);
    var r7 := Narrow(r6, q.city.Some?, q.CityOk);
    Narrow(r7, q.country.Some?, q.CountryOk)
  }

  lemma SelectPersonsIsFilter(persons: seq<People.Person>, q: PersonQuery)
    ensures SelectPersons(persons, q) == Filter(persons, q.Matches)
  {
    var s := persons;
    var c1 := q.UniOk;
    var c2 := p => c1(p) && q.FirstNameOk(p);
    var c3 := p => c2(p) && q.LastNameOk(p);
    var c4 := p => c3(p) && q.EmailOk(p);
    var c5 := p => c4(p) && q.PhoneOk(p);
    var c6 := p => c5(p) && q.BirthDateOk(p);
    var c7 := p => c6(p) && q.CityOk(p);
    var c8 := p => c7(p) && q.CountryOk(p);
    NarrowAlways(s, q.uni.Some?, q.UniOk);
    NarrowFilter(s, c1, q.firstName.Some?, q.FirstNameOk, c2);
    NarrowFilter(s, c2, q.lastName.Some?, q.LastNameOk, c3);
    NarrowFilter(s, c3, q.email.Some?, q.EmailOk, c4);
    NarrowFilter(s, c4, q.phone.Some?, q.PhoneOk, c5);
    NarrowFilter(s, c5, q.birthDate.Some?, q.BirthDateOk, c6);
    NarrowFilter(s, c6, q.city.Some?, q.CityOk, c7);
    NarrowFilter(s, c7, q.country.Some?, q.CountryOk, c8);
    FilterCongruent(s, c8, q.Matches);
  }

  /** `list_persons` returns exactly the stored persons that match, in stored order;
      a city (country) filter keeps a person iff one of their addresses is in it. */
  lemma SelectPersonsMeaning(persons: seq<People.Person>, q: PersonQuery)
    ensures forall p :: p in SelectPersons(persons, q) <==> p in persons && q.Matches(p)
    ensures IsSubsequence(SelectPersons(persons, q), persons)
    ensures q == PersonQuery(None, None, None, None, None, None, None, None) ==> SelectPersons(persons, q) == persons
  {
    SelectPersonsIsFilter(persons, q);
    forall p ensures p in SelectPersons(persons, q) <==> p in persons && q.Matches(p) {
      FilterMembers(persons, q.Matches, p);
    }
    FilterIsSubsequence(persons, q.Matches);
    if q == PersonQuery(None, None, None, None, None, None, None, None) {
      FilterAll(persons, q.Matches);
    }
  }
}
