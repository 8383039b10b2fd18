/** Books (models/book.py): a book with a `^978\d{10}$` ISBN; the create request
    carries the same fields without the id, and the update request has every field
    optional and neither the id nor the ISBN. */
module BookModel {
  import opened Wrappers
  import Basics
  import opened Text
  import opened Patterns
  import opened Patches

  /** `ISBNType`: `^978\d{10}$`. */
  const IsbnPattern: seq<Atom> := [Atom(Literal('9'), 1), Atom(Literal('7'), 1), Atom(Literal('8'), 1), Atom(AsciiDigit, 10)]

  predicate IsIsbn(s: string)
  {
    FullMatch(IsbnPattern, s)
  }

  /** An ISBN is thirteen digits starting with 978. */
  lemma IsbnShape(s: string)
    ensures IsIsbn(s) <==> |s| == 13 && s[..3] == "978" && forall i :: 0 <= i < 13 ==> IsDigit(s[i])
  {
    var p := IsbnPattern;
    assert p[0] == Atom(Literal('9'), 1);
    assert p[1..][0] == Atom(Literal('7'), 1);
    assert p[1..][1..][0] == Atom(Literal('8'), 1);
    assert p[1..][1..][1..][0] == Atom(AsciiDigit, 10);
    assert p[1..][1..][1..][1..] == [];
    if |s| >= 3 {
      assert FullMatch(p, s) <==> s[0] == '9' && FullMatch(p[1..], s[1..]);
      assert FullMatch(p[1..], s[1..]) <==> s[1] == '7' && FullMatch(p[1..][1..], s[2..]);
      assert FullMatch(p[1..][1..], s[2..]) <==> s[2] == '8' && FullMatch(p[1..][1..][1..], s[3..]);
      var rest := s[3..];
      if |rest| >= 10 {
        assert FullMatch(p[1..][1..][1..], rest)
           <==> (forall i :: 0 <= i < 10 ==> IsDigit(rest[i])) && rest[10..] == [];
        assert (forall i :: 0 <= i < 10 ==> IsDigit(rest[i])) <==> (forall i :: 3 <= i < 13 ==> IsDigit(s[i]));
      } else {
        assert !FullMatch(p[1..][1..][1..], rest);
      }
      assert s[..3] == "978" <==> s[0] == '9' && s[1] == '7' && s[2] == '8';
    } else {
      if |s| >= 1 && s[0] == '9' {
        if |s| >= 2 && s[1] == '7' {
          assert !FullMatch(p[1..][1..], s[2..]);
        }
      }
    }
  }

  /** `BookCreate`: the request body of a new book. The price is a decimal, kept
      exact as a real number. */
  datatype BookCreate = BookCreate(
    isbn: string,
    title: string,
    author: string,
    coAuthors: seq<string>,
    publisher: string,
    publicationDate: Basics.Date,
    edition: Option<int>,
    pages: Option<int>,
    price: Option<real>,
    genre: Option<string>,
    available: bool)
  {
    predicate Valid() { IsIsbn(isbn) }
  }

  /** `BookBase`: a stored book. */
  datatype Book = Book(
    id: Basics.Uuid,
    isbn: string,
    title: string,
    author: string,
    coAuthors: seq<string>,
    publisher: string,
    publicationDate: Basics.Date,
    edition: Option<int>,
    pages: Option<int>,
    price: Option<real>,
    genre: Option<string>,
    available: bool)
  {
    predicate Valid() { IsIsbn(isbn) }
  }

  /** `BookCreate(...)` with validation and the declared defaults: accepted iff the
      ISBN matches; edition, pages, price and genre take any value. */
  function NewBookCreate(isbn: string, title: string, author: string, publisher: string,
                         publicationDate: Basics.Date, coAuthors: seq<string> := [],
                         edition: Option<int> := None, pages: Option<int> := None, price: Option<real> := None,
                         genre: Option<string> := None, available: bool := true): (r: Result<BookCreate, string>)
    ensures r.Ok? <==> IsIsbn(isbn)
    ensures r.Ok? ==> r.value.Valid() && r.value.isbn == isbn && r.value.title == title && r.value.author == author
    ensures r.Ok? ==> r.value.coAuthors == coAuthors && r.value.available == available
    ensures r.Ok? ==> r.value.edition == edition && r.value.pages == pages && r.value.price == price
    ensures r.Ok? ==> r.value.genre == genre && r.value.publisher == publisher
    ensures r.Ok? ==> r.value.publicationDate == publicationDate
  {
    if !IsIsbn(isbn) then Err("isbn: String should match pattern '^978\\d{10}$'")
    else Ok(BookCreate(isbn, title, author, coAuthors, publisher, publicationDate, edition, pages, price, genre, available))
  }

  /** A book given only its required fields is available and has no co-authors. */
  lemma BookCreateDefaults(isbn: string, title: string, author: string, publisher: string, publicationDate: Basics.Date)
    ensures var r := NewBookCreate(isbn, title, author, publisher, publicationDate);
            && (r.Ok? <==> IsIsbn(isbn))
            && (r.Ok? ==> r.value.available && r.value.coAuthors == [] && r.value.genre.None?)
  {
  }

  /** `BookBase(**book.model_dump())`: the created book under the id the default
      factory `uuid4` draws (handed in as `id`). */
  function BookFromCreate(b: BookCreate, id: Basics.Uuid): (r: Book)
    ensures r.id == id && r.Valid() == b.Valid()
    ensures CreateOf(r) == b
  {
    Book(id, b.isbn, b.title, b.author, b.coAuthors, b.publisher, b.publicationDate, b.edition, b.pages,
         b.price, b.genre, b.available)
  }

  /** The fields of a stored book without its id. */
  function CreateOf(r: Book): (b: BookCreate)
    ensures b.Valid() == r.Valid()
  {
    BookCreate(r.isbn, r.title, r.author, r.coAuthors, r.publisher, r.publicationDate, r.edition, r.pages,
               r.price, r.genre, r.available)
  }

  /** Dropping the id and rebuilding under the same id gives the book back. */
  lemma BookRoundTrip(r: Book)
    ensures BookFromCreate(CreateOf(r), r.id) == r
  {
  }

  /** `BookUpdate` as `model_dump(exclude_unset=True)` sees it: each field is
      either not sent or sent with a value or null. There is no id and no ISBN. */
  datatype BookUpdate = BookUpdate(
    title: Patch<string>,
    author: Patch<string>,
    coAuthors: Patch<seq<string>>,
    publisher: Patch<string>,
    publicationDate: Patch<Basics.Date>,
    edition: Patch<int>,
    pages: Patch<int>,
    price: Patch<real>,
    genre: Patch<string>,
    available: Patch<bool>)
  {
    /** The update sends null for a field a stored book may not hold null in. */
    predicate ClearsRequired()
    {
      || Clears(title) || Clears(author) || Clears(coAuthors) || Clears(publisher)
      || Clears(publicationDate) || Clears(available)
    }
  }

  /** The empty update: no field sent. */
  const NoBookChange := BookUpdate(Keep, Keep, Keep, Keep, Keep, Keep, Keep, Keep, Keep, Keep)

  /** `stored.update(update.model_dump(exclude_unset=True))`: the sent fields
      replace the stored ones. None when a non-nullable field was sent as null. */
  function Overlay(b: Book, u: BookUpdate): (r: Option<Book>)
    ensures r.None? <==> u.ClearsRequired()
    ensures r.Some? ==> r.value.id == b.id && r.value.isbn == b.isbn
  {
    var title := Pick(u.title, b.title);
    var author := Pick(u.author, b.author);
    var coAuthors := Pick(u.coAuthors, b.coAuthors);
    var publisher := Pick(u.publisher, b.publisher);
    var publicationDate := Pick(u.publicationDate, b.publicationDate);
    var available := Pick(u.available, b.available);
    if || title.None? || author.None? || coAuthors.None? || publisher.None? || publicationDate.None?
       || available.None? then
      None
    else
      Some(Book(b.id, b.isbn, title.value, author.value, coAuthors.value, publisher.value, publicationDate.value,
                PickOptional(u.edition, b.edition), PickOptional(u.pages, b.pages),
                PickOptional(u.price, b.price), PickOptional(u.genre, b.genre), available.value))
  }

  /** `BookBase(**stored)` after the overlay. As an update cannot touch the ISBN,
      updating a valid book fails exactly when a non-nullable field is sent as null. */
  function MergeBook(b: Book, u: BookUpdate): (r: Result<Book, string>)
    ensures r.Ok? <==> b.Valid() && !u.ClearsRequired()
    ensures r.Ok? ==> r.value.Valid() && r.value.id == b.id && r.value.isbn == b.isbn
  {
    match Overlay(b, u)
    case None => Err("validation error: a field that may not be null was sent as null")
    case Some(merged) =>
      if merged.Valid() then Ok(merged) else Err("isbn: String should match pattern '^978\\d{10}$'")
  }

  /** The merge overwrites exactly the fields the update sends; every other field
      keeps its stored value. */
  lemma MergeFollowsUpdate(b: Book, u: BookUpdate)
    requires MergeBook(b, u).Ok?
    ensures var m := MergeBook(b, u).value;
            && Follows(u.title, b.title, m.title)
            && Follows(u.author, b.author, m.author)
            && Follows(u.coAuthors, b.coAuthors, m.coAuthors)
            && Follows(u.publisher, b.publisher, m.publisher)
            && Follows(u.publicationDate, b.publicationDate, m.publicationDate)
            && FollowsOptional(u.edition, b.edition, m.edition)
            && FollowsOptional(u.pages, b.pages, m.pages)
            && FollowsOptional(u.price, b.price, m.price)
            && FollowsOptional(u.genre, b.genre, m.genre)
            && Follows(u.available, b.available, m.available)
  {
  }

  /** An update that sends nothing leaves a valid book as it is. */
  lemma MergeNothing(b: Book)
    requires b.Valid()
    ensures MergeBook(b, NoBookChange) == Ok(b)
  {
  }

  /** Sending the same update twice has the effect of sending it once. */
  lemma MergeIdempotent(b: Book, u: BookUpdate)
    requires MergeBook(b, u).Ok?
    ensures MergeBook(MergeBook(b, u).value, u) == MergeBook(b, u)
  {
    assert Overlay(Overlay(b, u).value, u) == Overlay(b, u);
  }
}
