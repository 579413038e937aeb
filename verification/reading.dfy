/** The reading tracker (components/reading.tsx): a list of books, the book
    being read, and a count of the pages read today. */
module Reading {
  import opened Wrappers
  import opened Text
  import Seqs

  type Day = int

  datatype Book = Book(
    id: string,
    title: string,
    author: string,
    totalPages: int,
    currentPage: int,
    startDate: Day,
    coverColor: string)

  /** The cover colours a new book is given one of. */
  const Colors: seq<string> :=
    ["bg-blue-500", "bg-purple-500", "bg-green-500", "bg-yellow-500", "bg-red-500", "bg-pink-500"]

  /** The page of a book lies within the book, whenever the book has a
      non-negative number of pages. */
  predicate PageInRange(b: Book) {
    b.totalPages >= 0 ==> 0 <= b.currentPage <= b.totalPages
  }

  /** `Math.min(totalPages, Math.max(0, page))`: a page moved into the book.
      A page already inside is kept, one before the start becomes 0, one
      past the end becomes the last page. */
  function ClampPage(totalPages: int, page: int): (r: int)
    ensures totalPages >= 0 ==> 0 <= r <= totalPages
    ensures 0 <= page <= totalPages ==> r == page
    ensures page < 0 && totalPages >= 0 ==> r == 0
    ensures page > totalPages ==> r == totalPages
    ensures totalPages < 0 ==> r == totalPages
  {
    if totalPages < (if page > 0 then page else 0) then totalPages
    else if page > 0 then page
    else 0
  }

  /** Clamping a page that is already clamped changes nothing. */
  lemma ClampPageIdempotent(totalPages: int, page: int)
    requires totalPages >= 0
    ensures ClampPage(totalPages, ClampPage(totalPages, page)) == ClampPage(totalPages, page)
  {
  }

  /** The book `addBook` creates: no page read yet. */
  function NewBook(id: string, title: string, author: string, totalPages: int,
                   startDate: Day, coverColor: string): (b: Book)
    ensures b.currentPage == 0 && b.id == id && b.title == title && b.author == author
    ensures b.totalPages == totalPages && b.startDate == startDate && b.coverColor == coverColor
    ensures PageInRange(b)
  {
    Book(id, title, author, totalPages, 0, startDate, coverColor)
  }

  /** `books.map(book => book.id === id ? updated : book)`. */
  function ReplaceById(books: seq<Book>, id: string, updated: Book): (r: seq<Book>)
    ensures |r| == |books|
    ensures forall i :: 0 <= i < |books| ==> r[i] == if books[i].id == id then updated else books[i]
  {
    Seqs.MapWhere(books, (b: Book) => b.id == id, (b: Book) => updated)
  }

  /** A list with no entry of the given id is left as it is. */
  lemma ReplaceUnknownId(books: seq<Book>, id: string, updated: Book)
    requires forall i :: 0 <= i < |books| ==> books[i].id != id
    ensures ReplaceById(books, id, updated) == books
  {
  }

  /** Replacing books by one whose page is in range keeps every page in
      range. */
  lemma ReplaceKeepsPagesInRange(books: seq<Book>, id: string, updated: Book)
    requires forall b :: b in books ==> PageInRange(b)
    requires PageInRange(updated)
    ensures forall b :: b in ReplaceById(books, id, updated) ==> PageInRange(b)
  {
    var r := ReplaceById(books, id, updated);
    forall b | b in r ensures PageInRange(b) {
      var i :| 0 <= i < |r| && r[i] == b;
      assert b == updated || b == books[i];
    }
  }

  /** The seed list shown before any saved books are loaded. */
  function SeedBooks(): (r: seq<Book>)
    ensures |r| == 1 && forall b :: b in r ==> PageInRange(b)
  {
    [Book("1", "Atomic Habits", "James Clear", 320, 45, 20236, "bg-blue-500")]
  }

  /** The `Reading` component's state. */
  class ReadingTracker {
    var books: seq<Book>
    var currentBook: Option<Book>
    var newBookTitle: string
    var newBookAuthor: string
    var newBookPages: string
    var showAddBook: bool
    var todayPages: int

    /** Every book, and the current one, has its page inside it, and the
        pages read today are never negative. */
    ghost predicate Valid()
      reads this
    {
      && (forall b :: b in books ==> PageInRange(b))
      && (currentBook.Some? ==> PageInRange(currentBook.value))
      && todayPages >= 0
    }

    /** The initial state of the component, before saved data is loaded:
        the seed book, no current book, an empty form. */
    constructor ()
      ensures Valid()
      ensures books == SeedBooks() && currentBook == None && todayPages == 0
      ensures newBookTitle == "" && newBookAuthor == "" && newBookPages == "" && !showAddBook
    {
      books := SeedBooks();
      currentBook := None;
      newBookTitle := "";
      newBookAuthor := "";
      newBookPages := "";
      showAddBook := false;
      todayPages := 0;
    }

    /** `addBook()`, with `now` standing for `Date.now()`, `today` for the
        current day, `colorIndex` for the random colour pick and `pages` for
        `parseInt` of the pages field. An empty title, author or pages field
        changes nothing. Otherwise the new book, with no page read, is
        appended after the existing books, the form is cleared and closed,
        and when the list was empty the new book becomes the current one. */
    method AddBook(now: nat, today: Day, colorIndex: nat, pages: int)
      requires colorIndex < |Colors|
      requires Valid()
      modifies this`books, this`currentBook, this`newBookTitle, this`newBookAuthor,
               this`newBookPages, this`showAddBook
      ensures Valid()
      ensures old(newBookTitle) == "" || old(newBookAuthor) == "" || old(newBookPages) == "" ==>
                books == old(books) && currentBook == old(currentBook) &&
                newBookTitle == old(newBookTitle) && newBookAuthor == old(newBookAuthor) &&
                newBookPages == old(newBookPages) && showAddBook == old(showAddBook)
      ensures old(newBookTitle) != "" && old(newBookAuthor) != "" && old(newBookPages) != "" ==>
                var added := NewBook(Digits(now), old(newBookTitle), old(newBookAuthor), pages,
                                     today, Colors[colorIndex]);
                books == old(books) + [added] &&
                currentBook == (if old(books) == [] then Some(added) else old(currentBook)) &&
                newBookTitle == "" && newBookAuthor == "" && newBookPages == "" && !showAddBook
    {
      if newBookTitle == "" || newBookAuthor == "" || newBookPages == "" {
        return;
      }
      var added := NewBook(Digits(now), newBookTitle, newBookAuthor, pages, today, Colors[colorIndex]);
      var updatedBooks := books + [added];
      assert forall b :: b in updatedBooks ==> b in books || b == added;
      books := updatedBooks;
      newBookTitle := "";
      newBookAuthor := "";
      newBookPages := "";
      showAddBook := false;
      if |updatedBooks| == 1 {
        currentBook := Some(added);
      }
    }

    /** The "Add Book" button of the empty list: the form opens. */
    method OpenAddBook()
      requires Valid()
      modifies this`showAddBook
      ensures Valid()
      ensures showAddBook
    {
      showAddBook := true;
    }

    /** The header's add button: the form opens when closed and closes when
        open. */
    method ToggleAddBook()
      requires Valid()
      modifies this`showAddBook
      ensures Valid()
      ensures showAddBook == !old(showAddBook)
    {
      showAddBook := !showAddBook;
    }

    /** The form's Cancel button: the form closes, keeping what was typed. */
    method CloseAddBook()
      requires Valid()
      modifies this`showAddBook
      ensures Valid()
      ensures !showAddBook
    {
      showAddBook := false;
    }

    /** `selectBook(book)`: a book of the list becomes the current one. */
    method SelectBook(book: Book)
      requires book in books
      requires Valid()
      modifies this`currentBook
      ensures Valid()
      ensures currentBook == Some(book)
    {
      currentBook := Some(book);
    }

    /** `updateProgress(amount)`. With no current book nothing changes.
        Otherwise the current book's page moves by `amount`, clamped into the
        book; every list entry with the current book's id is replaced by the
        updated book, which also becomes the current book; and the pages read
        today grow by `amount` exactly when it is positive, even when the
        page was clamped. */
    method UpdateProgress(amount: int)
      requires Valid()
      modifies this`books, this`currentBook, this`todayPages
      ensures Valid()
      ensures old(currentBook) == None ==>
                books == old(books) && currentBook == None && todayPages == old(todayPages)
      ensures old(currentBook).Some? ==>
                var cur := old(currentBook).value;
                var updated := cur.(currentPage := ClampPage(cur.totalPages, cur.currentPage + amount));
                books == ReplaceById(old(books), cur.id, updated) && currentBook == Some(updated)
      ensures currentBook.Some? ==>
                forall i :: 0 <= i < |books| && books[i].id == currentBook.value.id ==> books[i] == currentBook.value
      ensures todayPages == old(todayPages) + (if amount > 0 && old(currentBook).Some? then amount else 0)
      ensures todayPages >= old(todayPages)
    {
      if currentBook == None {
        return;
      }
      var cur := currentBook.value;
      var updatedCurrentPage := ClampPage(cur.totalPages, cur.currentPage + amount);
      var updatedBook := cur.(currentPage := updatedCurrentPage);
      var updatedBooks := ReplaceById(books, cur.id, updatedBook);
      ReplaceKeepsPagesInRange(books, cur.id, updatedBook);
      currentBook := Some(updatedBook);
      books := updatedBooks;
      if amount > 0 {
        todayPages := todayPages + amount;
      }
    }
  }
}
