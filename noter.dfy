/** The two pure pieces of noter.py: the title shown for a note, and the
    newest-first order in which `list_notes` shows notes. */
module Noter {
  import opened Wrappers
  import opened Strings

  const NO_TITLE := "[No Title]"

  /** `content.split('\n', 1)[0]`: the text before the first newline, or all of
      `content` when it has none. */
  function FirstLine(content: string): (line: string)
    ensures line <= content
    ensures '\n' !in line
    ensures |line| < |content| ==> content[|line|] == '\n'
  {
    if content == [] || content[0] == '\n' then [] else [content[0]] + FirstLine(content[1..])
  }

  /** `get_note_title`: missing or empty content has the placeholder title;
      otherwise the first line, stripped, or the placeholder if that is blank. */
  function GetNoteTitle(content: Option<string>): (title: string)
    ensures title != [] && '\n' !in title
    ensures !IsSpace(title[0]) && !IsSpace(title[|title| - 1])
    ensures content.None? || content == Some("") ==> title == NO_TITLE
    ensures content.Some? && AllSpace(FirstLine(content.value)) ==> title == NO_TITLE
    ensures content.Some? && !AllSpace(FirstLine(content.value))
            ==> title == Strip(FirstLine(content.value))
  {
    NoTitleIsClean();
    if content.None? || content.value == "" then NO_TITLE
    else
      var line := FirstLine(content.value);
      var t := Strip(line);
      if t == "" then NO_TITLE
      else
        StripKeepsOut(line, '\n');
        t
  }

  /** The placeholder is itself a valid title. */
  lemma NoTitleIsClean()
    ensures NO_TITLE != [] && '\n' !in NO_TITLE
    ensures !IsSpace(NO_TITLE[0]) && !IsSpace(NO_TITLE[|NO_TITLE| - 1])
  {
    PrintableNotSpace('[');
    PrintableNotSpace(']');
  }

  /** Only the first line decides the title: whatever follows the first newline
      is ignored. */
  lemma TitleIgnoresLaterLines(first: string, rest: string)
    requires '\n' !in first
    ensures GetNoteTitle(Some(first + "\n" + rest)) == GetNoteTitle(Some(first))
  {
    FirstLineOf(first, rest);
    assert FirstLine(first) == first by { FirstLineOf(first, ""); assert first + "\n" + "" == first + "\n"; }
  }

  lemma {:induction false} FirstLineOf(first: string, rest: string)
    requires '\n' !in first
    ensures FirstLine(first + "\n" + rest) == first
    ensures FirstLine(first) == first
  {
    if first != [] {
      assert (first + "\n" + rest)[1..] == first[1..] + "\n" + rest;
      FirstLineOf(first[1..], rest);
    }
  }

  /** A line without surrounding whitespace is its own title. */
  lemma CleanLineIsTitle(line: string)
    requires line != [] && '\n' !in line
    requires !IsSpace(line[0]) && !IsSpace(line[|line| - 1])
    ensures GetNoteTitle(Some(line)) == line
  {
    FirstLineOf(line, "");
    assert LeadingSpaces(line) == 0;
    var t := line[0..];
    assert t == line;
    assert TrailingSpaces(line) == 0;
  }

  /** `"Title\nbody\nmore"` is titled `"Title"`. */
  lemma TitleExample(content: string)
    requires content == "Title\nbody\nmore"
    ensures GetNoteTitle(Some(content)) == "Title"
  {
    var first, rest := "Title", "body\nmore";
    assert content == first + "\n" + rest;
    TitleIgnoresLaterLines(first, rest);
    assert first[0] == 'T' && first[|first| - 1] == 'e';
    PrintableNotSpace('T');
    PrintableNotSpace('e');
    assert forall k :: 0 <= k < |first| ==> first[k] != '\n';
    CleanLineIsTitle(first);
  }

  /** A blank first line gives the placeholder even when later lines hold text. */
  lemma BlankFirstLine(first: string, rest: string)
    requires '\n' !in first && AllSpace(first)
    ensures GetNoteTitle(Some(first + "\n" + rest)) == NO_TITLE
  {
    FirstLineOf(first, rest);
  }

  /** The listing entry of a note, as far as the order is concerned. */
  datatype NoteMeta = NoteMeta(key: string, modifydate: Option<int>)

  /** `float(x.get('modifydate', 0))`: a missing date counts as 0. */
  function SortKey(n: NoteMeta): int {
    n.modifydate.GetOr(0)
  }

  ghost predicate NewestFirst(s: seq<NoteMeta>) {
    forall i, j :: 0 <= i < j < |s| ==> SortKey(s[i]) >= SortKey(s[j])
  }

  /** The notes of `s` whose sort key is `k`, in the order of `s`. */
  function WithKey(s: seq<NoteMeta>, k: int): seq<NoteMeta> {
    if s == [] then []
    else (if SortKey(s[0]) == k then [s[0]] else []) + WithKey(s[1..], k)
  }

  /** Places `n` before the first note of `s` that is not newer than it. */
  function Insert(n: NoteMeta, s: seq<NoteMeta>): seq<NoteMeta>
  {
    if s == [] || SortKey(n) >= SortKey(s[0]) then [n] + s
    else [s[0]] + Insert(n, s[1..])
  }

  lemma {:induction false} InsertPermutes(n: NoteMeta, s: seq<NoteMeta>)
    ensures multiset(Insert(n, s)) == multiset(s) + multiset{n}
  {
    if s != [] && SortKey(n) < SortKey(s[0]) {
      InsertPermutes(n, s[1..]);
      assert s == [s[0]] + s[1..];
    }
  }

  /** Every note of `Insert(n, s)` is `n` or a note of `s`. */
  lemma {:induction false} InsertFrom(n: NoteMeta, s: seq<NoteMeta>, j: nat)
    requires j < |Insert(n, s)|
    ensures Insert(n, s)[j] == n || Insert(n, s)[j] in s
  {
    if s != [] && SortKey(n) < SortKey(s[0]) && j > 0 {
      InsertFrom(n, s[1..], j - 1);
    }
  }

  lemma {:induction false} InsertSorted(n: NoteMeta, s: seq<NoteMeta>)
    requires NewestFirst(s)
    ensures NewestFirst(Insert(n, s))
  {
    if s != [] && SortKey(n) < SortKey(s[0]) {
      InsertSorted(n, s[1..]);
      var r, t := Insert(n, s), Insert(n, s[1..]);
      assert r == [s[0]] + t;
      forall j | 0 <= j < |t| ensures SortKey(s[0]) >= SortKey(t[j]) {
        InsertFrom(n, s[1..], j);
      }
    }
  }

  lemma {:induction false} InsertKeepsKeyOrder(n: NoteMeta, s: seq<NoteMeta>, k: int)
    ensures WithKey(Insert(n, s), k) == (if SortKey(n) == k then [n] else []) + WithKey(s, k)
  {
    if s == [] || SortKey(n) >= SortKey(s[0]) {
      assert Insert(n, s) == [n] + s;
      WithKeyCons(n, s, k);
    } else {
      var t := Insert(n, s[1..]);
      assert Insert(n, s) == [s[0]] + t;
      InsertKeepsKeyOrder(n, s[1..], k);
      WithKeyCons(s[0], t, k);
      WithKeyCons(s[0], s[1..], k);
      assert [s[0]] + s[1..] == s;
    }
  }

  lemma WithKeyCons(x: NoteMeta, s: seq<NoteMeta>, k: int)
    ensures WithKey([x] + s, k) == (if SortKey(x) == k then [x] else []) + WithKey(s, k)
  {
    assert ([x] + s)[0] == x && ([x] + s)[1..] == s;
  }

  /** `sorted(note_list, key=..., reverse=True)`: newest first, a permutation
      of the input, and stable, so that notes with equal dates keep their
      input order. */
  function SortByModifyDate(notes: seq<NoteMeta>): (r: seq<NoteMeta>)
    ensures NewestFirst(r)
    ensures multiset(r) == multiset(notes)
    ensures forall k :: WithKey(r, k) == WithKey(notes, k)
  {
    if notes == [] then []
    else
      var t := SortByModifyDate(notes[1..]);
      InsertSorted(notes[0], t);
      InsertPermutes(notes[0], t);
      assert notes == [notes[0]] + notes[1..];
      assert forall k :: WithKey(Insert(notes[0], t), k) == WithKey(notes, k) by {
        forall k ensures WithKey(Insert(notes[0], t), k) == WithKey(notes, k) {
          InsertKeepsKeyOrder(notes[0], t, k);
        }
      }
      Insert(notes[0], t)
  }
}
