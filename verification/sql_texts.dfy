/**
 The six SQL statements the handler can send, as single string literals,
 and the concatenations of builder writes that spell each of them.
 */
module SqlTexts {
  import opened Books

  /** The six statements as the SQL text the database receives. */
  function StatementText(filtered: bool, order: SortOrder): string {
    match (filtered, order)
    case (false, Unordered) =>
      "SELECT id, title, price, genre FROM books LIMIT $1 OFFSET $2"
    case (false, PriceAsc) =>
      "SELECT id, title, price, genre FROM books ORDER BY price ASC LIMIT $1 OFFSET $2"
    case (false, PriceDesc) =>
      "SELECT id, title, price, genre FROM books ORDER BY price DESC LIMIT $1 OFFSET $2"
    case (true, Unordered) =>
      "SELECT id, title, price, genre FROM books WHERE genre = $1 LIMIT $2 OFFSET $3"
    case (true, PriceAsc) =>
      "SELECT id, title, price, genre FROM books WHERE genre = $1 ORDER BY price ASC LIMIT $2 OFFSET $3"
    case (true, PriceDesc) =>
      "SELECT id, title, price, genre FROM books WHERE genre = $1 ORDER BY price DESC LIMIT $2 OFFSET $3"
  }

  /** The SELECT list followed by the genre filter, as one literal. */
  lemma FilteredHead()
    ensures SelectBooks + " WHERE " + "genre = $1" == "SELECT id, title, price, genre FROM books WHERE genre = $1"
  {
    assert SelectBooks + " WHERE " == "SELECT id, title, price, genre FROM books WHERE ";
  }

  /** The writes of each shape, concatenated, are that shape's SQL text. */
  lemma TextUnfilteredUnordered()
    ensures SelectBooks + " LIMIT $1" + " OFFSET $2"
         == "SELECT id, title, price, genre FROM books LIMIT $1 OFFSET $2"
  {
    assert SelectBooks + " LIMIT $1"
        == "SELECT id, title, price, genre FROM books LIMIT $1";
    assert "SELECT id, title, price, genre FROM books LIMIT $1" + " OFFSET $2"
        == "SELECT id, title, price, genre FROM books LIMIT $1 OFFSET $2";
  }

  lemma TextUnfilteredAsc()
    ensures SelectBooks + " ORDER BY price ASC" + " LIMIT $1" + " OFFSET $2"
         == "SELECT id, title, price, genre FROM books ORDER BY price ASC LIMIT $1 OFFSET $2"
  {
    assert SelectBooks + " ORDER BY price ASC"
        == "SELECT id, title, price, genre FROM books ORDER BY price ASC";
    assert "SELECT id, title, price, genre FROM books ORDER BY price ASC" + " LIMIT $1"
        == "SELECT id, title, price, genre FROM books ORDER BY price ASC LIMIT $1";
    assert "SELECT id, title, price, genre FROM books ORDER BY price ASC LIMIT $1" + " OFFSET $2"
        == "SELECT id, title, price, genre FROM books ORDER BY price ASC LIMIT $1 OFFSET $2";
  }

  lemma TextUnfilteredDesc()
    ensures SelectBooks + " ORDER BY price DESC" + " LIMIT $1" + " OFFSET $2"
         == "SELECT id, title, price, genre FROM books ORDER BY price DESC LIMIT $1 OFFSET $2"
  {
    assert SelectBooks + " ORDER BY price DESC"
        == "SELECT id, title, price, genre FROM books ORDER BY price DESC";
    assert "SELECT id, title, price, genre FROM books ORDER BY price DESC" + " LIMIT $1"
        == "SELECT id, title, price, genre FROM books ORDER BY price DESC LIMIT $1";
    assert "SELECT id, title, price, genre FROM books ORDER BY price DESC LIMIT $1" + " OFFSET $2"
        == "SELECT id, title, price, genre FROM books ORDER BY price DESC LIMIT $1 OFFSET $2";
  }

  lemma TextFilteredUnordered()
    ensures SelectBooks + " WHERE " + "genre = $1" + " LIMIT $2" + " OFFSET $3"
         == "SELECT id, title, price, genre FROM books WHERE genre = $1 LIMIT $2 OFFSET $3"
  {
    FilteredHead();
    assert "SELECT id, title, price, genre FROM books WHERE genre = $1" + " LIMIT $2"
        == "SELECT id, title, price, genre FROM books WHERE genre = $1 LIMIT $2";
    assert "SELECT id, title, price, genre FROM books WHERE genre = $1 LIMIT $2" + " OFFSET $3"
        == "SELECT id, title, price, genre FROM books WHERE genre = $1 LIMIT $2 OFFSET $3";
  }

  lemma TextFilteredAsc()
    ensures SelectBooks + " WHERE " + "genre = $1" + " ORDER BY price ASC" + " LIMIT $2" + " OFFSET $3"
         == "SELECT id, title, price, genre FROM books WHERE genre = $1 ORDER BY price ASC LIMIT $2 OFFSET $3"
  {
    FilteredHead();
    assert "SELECT id, title, price, genre FROM books WHERE genre = $1" + " ORDER BY price ASC"
        == "SELECT id, title, price, genre FROM books WHERE genre = $1 ORDER BY price ASC";
    assert "SELECT id, title, price, genre FROM books WHERE genre = $1 ORDER BY price ASC" + " LIMIT $2"
        == "SELECT id, title, price, genre FROM books WHERE genre = $1 ORDER BY price ASC LIMIT $2";
    assert "SELECT id, title, price, genre FROM books WHERE genre = $1 ORDER BY price ASC LIMIT $2" + " OFFSET $3"
        == "SELECT id, title, price, genre FROM books WHERE genre = $1 ORDER BY price ASC LIMIT $2 OFFSET $3";
  }

  lemma TextFilteredDesc()
    ensures SelectBooks + " WHERE " + "genre = $1" + " ORDER BY price DESC" + " LIMIT $2" + " OFFSET $3"
         == "SELECT id, title, price, genre FROM books WHERE genre = $1 ORDER BY price DESC LIMIT $2 OFFSET $3"
  {
    FilteredHead();
    assert "SELECT id, title, price, genre FROM books WHERE genre = $1" + " ORDER BY price DESC"
        == "SELECT id, title, price, genre FROM books WHERE genre = $1 ORDER BY price DESC";
    assert "SELECT id, title, price, genre FROM books WHERE genre = $1 ORDER BY price DESC" + " LIMIT $2"
        == "SELECT id, title, price, genre FROM books WHERE genre = $1 ORDER BY price DESC LIMIT $2";
    assert "SELECT id, title, price, genre FROM books WHERE genre = $1 ORDER BY price DESC LIMIT $2" + " OFFSET $3"
        == "SELECT id, title, price, genre FROM books WHERE genre = $1 ORDER BY price DESC LIMIT $2 OFFSET $3";
  }
}
