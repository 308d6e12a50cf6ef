/** Creating a book: the genre list is flattened to one comma-separated column and the
    other fields are copied into a new row of the `books` table. */
module BookStoreAction {
  import opened Wrappers
  import opened Text

  const GenreSeparator: string := ", "

  /** The validated request data. */
  datatype BookData = BookData(
    title: string, author: string, editor: string, length: int,
    isbn: string, bookcaseId: string, generos: seq<string>)

  /** A row of `books`. */
  datatype BookRow = BookRow(
    title: string, author: string, editor: string, length: int,
    isbn: string, bookcaseId: string, genres: string)

  /** `implode(', ', $data['generos'])` */
  function GenresColumn(generos: seq<string>): (r: string)
    ensures generos == [] ==> r == ""
    ensures |generos| == 1 ==> r == generos[0]
  {
    Join(generos, GenreSeparator)
  }

  /** The column keeps the genres in order: splitting it on ", " gives the list back
      when no genre holds ", ". */
  lemma {:induction false} GenresRoundTrip(generos: seq<string>)
    requires generos != []
    requires forall k | 0 <= k < |generos| :: !Contains(generos[k], GenreSeparator)
    ensures Split(GenresColumn(generos), GenreSeparator) == generos
  {
    forall k | 0 <= k < |generos|
      ensures EndsCleanly(generos[k], GenreSeparator)
    {
      CommaSpaceClean(generos[k]);
    }
    SplitJoin(generos, GenreSeparator);
  }

  /** An empty list is stored as "", which reads back as one empty genre. */
  lemma NoGenresReadBack()
    ensures Split(GenresColumn([]), GenreSeparator) == [""]
  {
    assert !OccursAt(GenreSeparator, "", 0);
  }

  /** The row `Book::create` inserts. */
  function NewRow(data: BookData): (r: BookRow)
    ensures r.title == data.title && r.author == data.author && r.editor == data.editor
    ensures r.length == data.length && r.isbn == data.isbn && r.bookcaseId == data.bookcaseId
    ensures r.genres == GenresColumn(data.generos)
  {
    BookRow(data.title, data.author, data.editor, data.length, data.isbn, data.bookcaseId,
            GenresColumn(data.generos))
  }

  datatype StoreError = DuplicateId

  class Books {
    var rows: map<string, BookRow>

    constructor ()
      ensures rows == map[]
    {
      rows := map[];
    }

    /** `__invoke`: inserts the new book under the generated `id`. Nothing about the
        target bookcase, its capacity included, is consulted: the insert succeeds for
        every fresh id. */
    method Store(id: string, data: BookData) returns (r: Result<BookRow, StoreError>)
      modifies this
      ensures r.Ok? <==> id !in old(rows)
      ensures r.Ok? ==> r.value == NewRow(data) && rows == old(rows)[id := NewRow(data)]
      ensures r.Err? ==> rows == old(rows)
    {
      if id in rows {
        return Err(DuplicateId);
      }
      var row := NewRow(data);
      rows := rows[id := row];
      r := Ok(row);
    }
  }
}
