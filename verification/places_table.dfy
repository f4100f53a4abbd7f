/**
 * The saved-places list screen: an ordered list of places kept free of
 * duplicates by its insert, a delete by row, persistence as a recorded
 * event, and the choice of what the map screen is given to show.
 */
module PlacesTable {
  import opened Domain

  /** No two entries of `s` are equal. */
  ghost predicate NoDuplicates(s: seq<Place>)
  {
    forall i, j :: 0 <= i < j < |s| ==> s[i] != s[j]
  }

  /** The list after inserting `p` unless an equal place is already present. */
  function AddIfAbsent(s: seq<Place>, p: Place): (r: seq<Place>)
    ensures p in r
    ensures forall q :: q in r <==> q in s || q == p
    ensures |r| == if p in s then |s| else |s| + 1
    ensures r[..|s|] == s
    ensures p !in s ==> r[|s|] == p
  {
    if p in s then s else s + [p]
  }

  /** The list with the entry at row `i` removed. */
  function RemoveAt(s: seq<Place>, i: nat): (r: seq<Place>)
    requires i < |s|
    ensures |r| == |s| - 1
    ensures forall k :: 0 <= k < i ==> r[k] == s[k]
    ensures forall k :: i <= k < |r| ==> r[k] == s[k + 1]
    ensures multiset(r) + multiset{s[i]} == multiset(s)
  {
    assert s == s[..i] + [s[i]] + s[i + 1..];
    s[..i] + s[i + 1..]
  }

  /** Inserting the same place twice leaves the list as inserting it once. */
  lemma AddIsIdempotent(s: seq<Place>, p: Place)
    ensures AddIfAbsent(AddIfAbsent(s, p), p) == AddIfAbsent(s, p)
  {
  }

  /** Inserting keeps a duplicate-free list duplicate-free. */
  lemma AddKeepsNoDuplicates(s: seq<Place>, p: Place)
    requires NoDuplicates(s)
    ensures NoDuplicates(AddIfAbsent(s, p))
  {
    var r := AddIfAbsent(s, p);
    forall i, j | 0 <= i < j < |r| ensures r[i] != r[j] {
      if j == |s| {
        assert r[i] == s[i];
      }
    }
  }

  /** Deleting keeps a duplicate-free list duplicate-free. */
  lemma RemoveKeepsNoDuplicates(s: seq<Place>, i: nat)
    requires i < |s| && NoDuplicates(s)
    ensures NoDuplicates(RemoveAt(s, i))
  {
    var r := RemoveAt(s, i);
    forall a, b | 0 <= a < b < |r| ensures r[a] != r[b] {
      var a' := if a < i then a else a + 1;
      var b' := if b < i then b else b + 1;
      assert r[a] == s[a'] && r[b] == s[b'] && a' < b';
    }
  }

  /** In a duplicate-free list the deleted place is gone afterwards. */
  lemma RemovedPlaceIsGone(s: seq<Place>, i: nat)
    requires i < |s| && NoDuplicates(s)
    ensures s[i] !in RemoveAt(s, i)
  {
    var r := RemoveAt(s, i);
    forall k | 0 <= k < |r| ensures r[k] != s[i] {
      var k' := if k < i then k else k + 1;
      assert r[k] == s[k'] && k' != i;
    }
  }

  /** Deleting the row that an effective insert created restores the list. */
  lemma RemoveUndoesAdd(s: seq<Place>, p: Place)
    requires p !in s
    ensures RemoveAt(AddIfAbsent(s, p), |s|) == s
  {
    var r := RemoveAt(AddIfAbsent(s, p), |s|);
    assert |r| == |s|;
    forall k | 0 <= k < |s| ensures r[k] == s[k] {
      assert AddIfAbsent(s, p)[..|s|] == s;
    }
  }

  /** What the JSON decoder makes of the data stored under the "places" key. */
  datatype Decoding = Decoded(places: seq<Place>) | DecodeFailed

  /** The table's editing styles; only a delete changes the list. */
  datatype EditingStyle = NoEditing | Delete | Insert

  /** The sender of a segue: a place (a selected row) or anything else (nil for "show all"). */
  datatype Sender = PlaceSender(place: Place) | OtherSender

  /** The screen a segue leads to, as prepared by this controller. */
  datatype Destination =
    | MapScreen(places: seq<Place>)     // the map, given the places to show
    | FinderScreen                      // the place finder, with this list as its delegate

  /** The identifier of the segue to the map screen. */
  const MapSegue: string := "mapSegue"

  /** `prepare(for:sender:)`: which screen opens and what it is given. */
  function Prepare(identifier: string, sender: Sender, places: seq<Place>): (d: Destination)
    ensures identifier != MapSegue <==> d == FinderScreen
    ensures identifier == MapSegue && sender.PlaceSender? ==> d == MapScreen([sender.place])
    ensures identifier == MapSegue && sender.OtherSender? ==> d == MapScreen(places)
  {
    if identifier != MapSegue then FinderScreen
    else match sender
      case PlaceSender(p) => MapScreen([p])
      case OtherSender => MapScreen(places)
  }

  class PlacesTableController {
    /** The saved places, in insertion order. */
    var places: seq<Place>
    /** How many times the list has been written to storage. */
    var saveCount: nat
    /** The list handed to storage by the latest save, if any. */
    var lastSaved: Option<seq<Place>>
    /** Whether the "Mostrar todos no mapa" button is in the navigation bar. */
    var showAllButton: bool
    /** Whether the empty-list hint is the table's background. */
    var emptyHintShown: bool

    constructor ()
      ensures places == [] && saveCount == 0 && lastSaved == None
      ensures !showAllButton && !emptyHintShown
    {
      places := [];
      saveCount := 0;
      lastSaved := None;
      showAllButton := false;
      emptyHintShown := false;
    }

    /**
     * `loadPlaces`: `stored` is the decoder's view of the data under the
     * "places" key (None when the key holds nothing). A decoded list replaces
     * `places` and the reloaded table counts its rows again; a failed decode,
     * or no data at all, changes nothing.
     */
    method LoadPlaces(stored: Option<Decoding>)
      modifies this`places, this`showAllButton, this`emptyHintShown
      ensures stored.Some? && stored.value.Decoded? ==>
        && places == stored.value.places
        && showAllButton == (|places| > 0) && emptyHintShown == (|places| == 0)
      ensures !(stored.Some? && stored.value.Decoded?) ==>
        && places == old(places)
        && showAllButton == old(showAllButton) && emptyHintShown == old(emptyHintShown)
    {
      if stored.Some? {
        match stored.value
        case Decoded(ps) =>
          places := ps;
          var _ := NumberOfRows();
        case DecodeFailed =>
      }
    }

    /** `savePlaces`: writes the current list to storage. */
    method SavePlaces()
      modifies this`saveCount, this`lastSaved
      ensures saveCount == old(saveCount) + 1
      ensures lastSaved == Some(places)
    {
      saveCount := saveCount + 1;
      lastSaved := Some(places);
    }

    /**
     * `addPlace`: inserts `p` unless an equal place is present; only an
     * insert saves and reloads the table, whose recount then shows "show all".
     */
    method AddPlace(p: Place)
      modifies this`places, this`saveCount, this`lastSaved, this`showAllButton, this`emptyHintShown
      ensures places == AddIfAbsent(old(places), p)
      ensures p in old(places) ==>
        && saveCount == old(saveCount) && lastSaved == old(lastSaved)
        && showAllButton == old(showAllButton) && emptyHintShown == old(emptyHintShown)
      ensures p !in old(places) ==>
        && saveCount == old(saveCount) + 1 && lastSaved == Some(places)
        && showAllButton && !emptyHintShown
    {
      if p !in places {
        places := places + [p];
        SavePlaces();
        var _ := NumberOfRows();
      }
    }

    /**
     * The delete handler (`commit editingStyle`): removes row `row`, lets the
     * table count its rows again (deleting the last row hides "show all"),
     * and saves.
     */
    method CommitEditing(style: EditingStyle, row: nat)
      requires style == Delete ==> row < |places|
      modifies this`places, this`saveCount, this`lastSaved, this`showAllButton, this`emptyHintShown
      ensures style == Delete ==> places == RemoveAt(old(places), row)
      ensures style == Delete ==> saveCount == old(saveCount) + 1 && lastSaved == Some(places)
      ensures style == Delete ==> showAllButton == (|places| > 0) && emptyHintShown == (|places| == 0)
      ensures style != Delete ==>
        && places == old(places) && saveCount == old(saveCount) && lastSaved == old(lastSaved)
        && showAllButton == old(showAllButton) && emptyHintShown == old(emptyHintShown)
    {
      if style == Delete {
        places := places[..row] + places[row + 1..];
        var _ := NumberOfRows();
        SavePlaces();
      }
    }

    /** `numberOfRowsInSection`: one row per place; "show all" exactly when there is a place. */
    method NumberOfRows() returns (n: nat)
      modifies this`showAllButton, this`emptyHintShown
      ensures n == |places|
      ensures showAllButton <==> n > 0
      ensures emptyHintShown <==> n == 0
    {
      if |places| > 0 {
        showAllButton := true;
        emptyHintShown := false;
      } else {
        showAllButton := false;
        emptyHintShown := true;
      }
      n := |places|;
    }

    /** `didSelectRowAt`: opens the map with the selected place as sender. */
    method SelectRow(row: nat) returns (d: Destination)
      requires row < |places|
      ensures d == MapScreen([places[row]])
    {
      d := Prepare(MapSegue, PlaceSender(places[row]), places);
    }

    /** `showAll`: opens the map with no sender. */
    method ShowAll() returns (d: Destination)
      ensures d == MapScreen(places)
    {
      d := Prepare(MapSegue, OtherSender, places);
    }
  }
}
