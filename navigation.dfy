/**
 * Multi-file navigation of GPRMaxOutReader: the selected paths, the index of the
 * displayed one (browse_files, next_file, prev_file, main.py:201-229) and the
 * enablement of the two buttons (update_ui, main.py:104-108).
 */
module Navigation {

  datatype Cursor = Cursor(paths: seq<string>, index: int)

  /** The index names a selected path, or is 0 while nothing is selected. */
  predicate Valid(c: Cursor)
  {
    if c.paths == [] then c.index == 0 else 0 <= c.index < |c.paths|
  }

  /** The state before any selection (initUI, main.py:18-19). */
  const Initial: Cursor := Cursor([], 0)

  /** update_ui: "Next File" is enabled while index < n - 1. */
  predicate NextEnabled(c: Cursor)
  {
    c.index < |c.paths| - 1
  }

  /** update_ui: "Previous File" is enabled while index > 0. */
  predicate PrevEnabled(c: Cursor)
  {
    c.index > 0
  }

  /** browse_files: a non-empty selection replaces the list and shows its first file. */
  function Browse(c: Cursor, selection: seq<string>): (r: Cursor)
    requires Valid(c)
    ensures Valid(r)
    ensures selection == [] ==> r == c
    ensures selection != [] ==> r.paths == selection && r.index == 0 && !PrevEnabled(r)
  {
    if selection != [] then Cursor(selection, 0) else c
  }

  /** next_file: steps forward unless the last file is shown. */
  function Next(c: Cursor): (r: Cursor)
    requires Valid(c)
    ensures Valid(r) && r.paths == c.paths
    ensures c.index <= r.index <= c.index + 1
  {
    if c.index < |c.paths| - 1 then c.(index := c.index + 1) else c
  }

  /** prev_file: steps back unless the first file is shown. */
  function Prev(c: Cursor): (r: Cursor)
    requires Valid(c)
    ensures Valid(r) && r.paths == c.paths
    ensures c.index - 1 <= r.index <= c.index
  {
    if c.index > 0 then c.(index := c.index - 1) else c
  }

  /** Each button is enabled exactly when pressing it would move to another file. */
  lemma EnabledIffMoves(c: Cursor)
    requires Valid(c)
    ensures NextEnabled(c) <==> Next(c) != c
    ensures PrevEnabled(c) <==> Prev(c) != c
  {
  }

  /** Next then Previous returns to the same file, and conversely. */
  lemma NextPrevRoundTrip(c: Cursor)
    requires Valid(c)
    ensures NextEnabled(c) ==> Prev(Next(c)) == c
    ensures PrevEnabled(c) ==> Next(Prev(c)) == c
  {
  }

  /** Pressing Next k times. */
  function NextTimes(c: Cursor, k: nat): (r: Cursor)
    requires Valid(c)
    ensures Valid(r) && r.paths == c.paths
  {
    if k == 0 then c else Next(NextTimes(c, k - 1))
  }

  /** From any file, k presses of Next reach min(index + k, n - 1): the index never leaves the list. */
  lemma {:induction false} NextTimesSaturates(c: Cursor, k: nat)
    requires Valid(c) && c.paths != []
    ensures NextTimes(c, k).index
         == if c.index + k < |c.paths| - 1 then c.index + k else |c.paths| - 1
  {
    if k > 0 {
      NextTimesSaturates(c, k - 1);
    }
  }
}
