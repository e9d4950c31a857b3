/** The list view that `updatePlaylistUI` renders from the player's state. */
module PlaylistView {
  import opened Playlist
  import JsNumber

  /** One list item: its text and whether it carries the `active` class. */
  datatype Entry = Entry(text: string, active: bool)

  /** The whole list: the empty-list notice, or one item per track. */
  datatype View = EmptyNotice | Entries(items: seq<Entry>)

  /** `${index + 1}. ${track.name}`. */
  function EntryText(index: nat, name: string): string
  {
    JsNumber.Show(index + 1) + ". " + name
  }

  /** The rendered list: the notice when there are no tracks, otherwise one
      item per track, numbered from 1, with exactly the item at the cursor
      marked active. */
  function Render(s: State): (v: View)
    ensures v.EmptyNotice? <==> |s.playlist| == 0
    ensures v.Entries? ==> |v.items| == |s.playlist|
    ensures v.Entries? ==> forall k :: 0 <= k < |v.items| ==>
      (v.items[k].active <==> k == s.current) && v.items[k].text == EntryText(k, s.playlist[k].name)
  {
    if |s.playlist| == 0 then EmptyNotice
    else Entries(seq(|s.playlist|, k requires 0 <= k < |s.playlist| =>
      Entry(EntryText(k, s.playlist[k].name), k == s.current)))
  }

  /** In a consistent state with tracks, one item and only one is active: the
      current track's. */
  lemma RenderMarksCurrentOnly(s: State)
    requires Valid(s) && |s.playlist| > 0
    ensures Render(s).Entries? && Render(s).items[s.current].active
    ensures forall k :: 0 <= k < |Render(s).items| && Render(s).items[k].active ==> k == s.current
  {
  }

  /** The longest prefix of `t` made of decimal digits. */
  function LeadingDigits(t: string): (r: string)
    ensures JsNumber.IsDigits(r) && r <= t
    ensures |r| < |t| ==> !('0' <= t[|r|] <= '9')
  {
    if t == [] || !('0' <= t[0] <= '9') then [] else [t[0]] + LeadingDigits(t[1..])
  }

  lemma {:induction false} LeadingDigitsOfDigits(d: string, rest: string)
    requires JsNumber.IsDigits(d)
    requires rest == [] || !('0' <= rest[0] <= '9')
    ensures LeadingDigits(d + rest) == d
  {
    if d != [] {
      var t := d + rest;
      assert t[0] == d[0] && '0' <= t[0] <= '9';
      assert t[1..] == d[1..] + rest;
      LeadingDigitsOfDigits(d[1..], rest);
      assert LeadingDigits(t) == [d[0]] + d[1..];
    } else {
      assert d + rest == rest;
    }
  }

  /** An item's text reads back as its 1-based number followed by ". " and
      the track's name, whatever characters the name holds. */
  lemma EntryTextReadsBack(index: nat, name: string)
    ensures var t := EntryText(index, name);
      var digits := LeadingDigits(t);
      && JsNumber.Value(digits) == index + 1
      && t[|digits|..] == ". " + name
  {
    var digits := JsNumber.Show(index + 1);
    assert EntryText(index, name) == digits + (". " + name);
    LeadingDigitsOfDigits(digits, ". " + name);
    JsNumber.ValueOfShow(index + 1);
  }
}
