/**
 * The task details dialog: toggling a checklist item, and the initials an
 * avatar shows for a name (the task card computes them by the same rule).
 */
module TaskDetails {
  import opened Common
  import opened Text

  datatype ChecklistItem = ChecklistItem(id: string, text: string, completed: bool, owner: Option<string>)

  /** `toggleChecklistItem`: flips `completed` on the items with this id. */
  function ToggleItem(list: seq<ChecklistItem>, id: string): (r: seq<ChecklistItem>)
    ensures |r| == |list|
    ensures forall i :: 0 <= i < |list| ==>
              && r[i].id == list[i].id && r[i].text == list[i].text && r[i].owner == list[i].owner
              && (r[i] == list[i] <==> list[i].id != id)
  {
    seq(|list|, i requires 0 <= i < |list| =>
      if list[i].id == id then list[i].(completed := !list[i].completed) else list[i])
  }

  /** Toggling the same item twice restores the list. */
  lemma ToggleTwice(list: seq<ChecklistItem>, id: string)
    ensures ToggleItem(ToggleItem(list, id), id) == list
  {
    var r := ToggleItem(ToggleItem(list, id), id);
    assert forall i :: 0 <= i < |list| ==> r[i] == list[i];
  }

  /** An id no item has leaves the list as it is. */
  lemma ToggleUnknown(list: seq<ChecklistItem>, id: string)
    requires forall x :: x in list ==> x.id != id
    ensures ToggleItem(list, id) == list
  {
    var r := ToggleItem(list, id);
    forall i | 0 <= i < |list| ensures r[i] == list[i] {
      assert list[i] in list;
    }
  }

  // ------------------------------------------------------------- initials

  /** `.map(n => n[0]).join("")`: the first character of each word; an empty word has none and adds nothing. */
  function Heads(words: seq<string>): (h: string)
    ensures |h| <= |words|
  {
    if words == [] then ""
    else (if words[0] == "" then "" else [words[0][0]]) + Heads(words[1..])
  }

  /** `getInitials`: the first characters of the space-separated words, upper-cased, at most two. */
  function Initials(name: string): (r: string)
    ensures |r| <= 2
  {
    var h := ToUpper(Heads(Split(name, ' ')));
    h[..if |h| < 2 then |h| else 2]
  }

  predicate NonEmpty(w: string) {
    w != ""
  }

  /** The non-empty words of a name, in order. */
  function Words(name: string): (ws: seq<string>)
    ensures forall w :: w in ws ==> w != "" && ' ' !in w
  {
    var parts := Split(name, ' ');
    assert forall w :: w in parts ==> ' ' !in w;
    Filter(parts, NonEmpty)
  }

  /** The first character of each of some non-empty words. */
  function FirstLetters(ws: seq<string>): (s: string)
    requires forall i :: 0 <= i < |ws| ==> ws[i] != ""
    ensures |s| == |ws| && forall i :: 0 <= i < |ws| ==> s[i] == ws[i][0]
  {
    seq(|ws|, i requires 0 <= i < |ws| => ws[i][0])
  }

  lemma {:induction false} HeadsAreFirstLetters(parts: seq<string>)
    ensures Heads(parts) == FirstLetters(Filter(parts, NonEmpty))
  {
    if parts != [] {
      var f, rest := Filter(parts, NonEmpty), Filter(parts[1..], NonEmpty);
      var b := FirstLetters(rest);
      HeadsAreFirstLetters(parts[1..]);
      assert Heads(parts[1..]) == b;
      if parts[0] != "" {
        assert f == [parts[0]] + rest;
        assert Heads(parts) == [parts[0][0]] + b;
        FirstLettersCons(parts[0], rest);
      } else {
        assert f == rest;
        assert Heads(parts) == b;
      }
    }
  }

  lemma FirstLettersCons(w: string, ws: seq<string>)
    requires w != "" && forall i :: 0 <= i < |ws| ==> ws[i] != ""
    ensures FirstLetters([w] + ws) == [w[0]] + FirstLetters(ws)
  {
    var a, b := FirstLetters([w] + ws), FirstLetters(ws);
    forall i | 0 < i < |a| ensures a[i] == b[i - 1] {
      assert ([w] + ws)[i] == ws[i - 1];
    }
  }

  /** The initials are the upper-cased first letters of the first two non-empty words. */
  lemma InitialsOfWords(name: string)
    ensures var ws := Words(name);
            var n := if |ws| < 2 then |ws| else 2;
            |Initials(name)| == n && forall i :: 0 <= i < n ==> Initials(name)[i] == UpperChar(ws[i][0])
  {
    HeadsAreFirstLetters(Split(name, ' '));
  }

  /** A one-word name gives exactly its upper-cased first letter. */
  lemma OneWord(name: string)
    requires name != "" && ' ' !in name
    ensures Initials(name) == [UpperChar(name[0])]
  {
    assert Split(name, ' ') == [name];
    assert Heads([name]) == [name[0]] + Heads([]);
  }
}
