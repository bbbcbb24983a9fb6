/**
 * A concrete run of the store and the derived view: load two new tokens,
 * move one price, filter, select, and send an update for an unknown id.
 */
module Scenario {
  import opened Wrappers
  import opened Strings
  import opened Store
  import opened TokenList

  function TokenA(): Token {
    Token("a", "AAAA", "Alpha", 1.0, None, 0.0, Some(0), 0, New, 0, 0, 100, None, 0)
  }

  function TokenB(): Token {
    Token("b", "BBBB", "Beta", 1.0, None, 0.0, Some(0), 0, New, 0, 0, 200, None, 0)
  }

  /** Token A after its price moved to 5. */
  function MovedA(): Token {
    TokenA().(price := 5.0)
  }

  /** Neither "AAAA" nor "Alpha" contains a "b" in any case. */
  lemma AlphaMissesB()
    ensures !Matches(MovedA(), "B")
  {
    assert LowerStr("B") == "b";
    assert LowerStr("AAAA") == "aaaa";
    assert LowerStr("Alpha") == "alpha";
    IncludesChar("aaaa", 'b');
    IncludesChar("alpha", 'b');
  }

  /** Sorting by `created` puts B (200) before A (100), whatever A's price. */
  lemma SortByCreated(x: Token)
    requires x.created == 100
    ensures SortDesc([x, TokenB()], Created) == [TokenB(), x]
  {
    assert [x, TokenB()][..1] == [x];
    assert [x][..0] == [];
    assert SortDesc([x], Created) == [x];
    assert Insert([x], TokenB(), Created) == Insert([], TokenB(), Created) + [x];
  }

  /** The filter "B" keeps B only. */
  lemma FilterB()
    ensures DisplayTokens([MovedA(), TokenB()], "B", Created) == [TokenB()]
  {
    assert LowerStr("BBBB") == "bbbb" && LowerStr("B") == "b";
    assert Matches(TokenB(), "B");
    AlphaMissesB();
    assert [MovedA(), TokenB()][..1] == [MovedA()];
    assert [MovedA()][..0] == [];
    assert Keep([MovedA()], "B") == [];
    assert [TokenB()][..0] == [];
    assert FilterTokens([MovedA(), TokenB()], "B") == [TokenB()];
  }

  /** The states of the run, one action at a time. */
  function Loaded(): AppState {
    Reduce(InitialState(), InitData(Buckets([TokenA(), TokenB()], [], [])))
  }

  function Moved(): AppState {
    Reduce(Loaded(), UpdatePrice("a", 5.0, New))
  }

  function Filtered(): AppState {
    Reduce(Moved(), SetFilter("B"))
  }

  function Selected(): AppState {
    Reduce(Filtered(), SelectToken(Some(MovedA())))
  }

  function Missed(): AppState {
    Reduce(Selected(), UpdatePrice("nonexistent", 99.0, New))
  }

  lemma LoadAndMove()
    ensures Loaded() == AppState(Buckets([TokenA(), TokenB()], [], []), None, Created, "", false)
    ensures Moved() == AppState(Buckets([MovedA(), TokenB()], [], []), None, Created, "", false)
  {
    assert FindIndex([TokenA(), TokenB()], "a") == 0;
    assert [TokenA(), TokenB()][0 := MovedA()] == [MovedA(), TokenB()];
  }

  lemma LoadedView()
    ensures DisplayTokens(Loaded().tokens.Get(New), Loaded().filter, Loaded().sortKey) == [TokenB(), TokenA()]
  {
    LoadAndMove();
    SortByCreated(TokenA());
  }

  lemma MovedView()
    ensures DisplayTokens(Moved().tokens.Get(New), Moved().filter, Moved().sortKey) == [TokenB(), MovedA()]
  {
    LoadAndMove();
    SortByCreated(MovedA());
  }

  lemma FilteredState()
    ensures Filtered() == AppState(Buckets([MovedA(), TokenB()], [], []), None, Created, "B", false)
  {
    LoadAndMove();
  }

  lemma FilteredView()
    ensures DisplayTokens(Filtered().tokens.Get(New), Filtered().filter, Filtered().sortKey) == [TokenB()]
  {
    FilteredState();
    FilterB();
  }

  lemma SelectAndMiss()
    ensures Selected().selectedToken == Some(MovedA())
    ensures Missed() == Selected()
  {
    FilteredState();
    assert FindIndex([MovedA(), TokenB()], "nonexistent") == -1;
  }

  /** Loading A (created 100) and B (created 200) shows B first; moving A's
      price keeps the order; the filter "B" hides A; the selection is the
      moved A; an update for an id nobody holds changes nothing. */
  lemma EndToEndScenario()
    ensures !Loaded().isLoading
    ensures DisplayTokens(Loaded().tokens.Get(New), Loaded().filter, Loaded().sortKey) == [TokenB(), TokenA()]
    ensures DisplayTokens(Moved().tokens.Get(New), Moved().filter, Moved().sortKey) == [TokenB(), MovedA()]
    ensures DisplayTokens(Filtered().tokens.Get(New), Filtered().filter, Filtered().sortKey) == [TokenB()]
    ensures Selected().selectedToken == Some(MovedA())
    ensures Missed() == Selected()
  {
    LoadedView();
    MovedView();
    FilteredView();
    SelectAndMiss();
  }
}
