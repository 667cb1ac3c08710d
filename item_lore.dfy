/** The lore of an item stack (Keys.ITEM_LORE) and the three edits the Sponge
    host makes to it: setLore, removeLore and addItemLore. Each reads the lore
    list, changes it and offers it back to the item; the model keeps the list
    in a field of the item and reassigns it. */
module ItemLore {
  import opened Wrappers

  /** The list with the line at index taken out (List.remove(int)). */
  function RemoveAt(lines: seq<string>, index: nat): (r: seq<string>)
    requires index < |lines|
    ensures |r| == |lines| - 1
    ensures forall j | 0 <= j < index :: r[j] == lines[j]
    ensures forall j | index <= j < |r| :: r[j] == lines[j + 1]
  {
    lines[..index] + lines[index + 1..]
  }

  /** Taking out the line just appended gives back the list before the append. */
  lemma RemoveAtUndoesAppend(lines: seq<string>, line: string)
    ensures RemoveAt(lines + [line], |lines|) == lines
  {
    assert (lines + [line])[..|lines|] == lines;
  }

  /** What removeLore throws when the index is outside the list. */
  datatype LoreError = IndexOutOfBounds(index: int, size: nat)

  class ItemStack {
    /** The lore lines; None when the item has no lore at all. */
    var lore: Option<seq<string>>

    constructor (lore: Option<seq<string>>)
      ensures this.lore == lore
    {
      this.lore := lore;
    }

    /** setLore: replaces line index, and only when the item has lore and the
        index lies inside it; the result says whether it did. */
    method SetLore(index: int, line: string) returns (ok: bool)
      modifies this
      ensures ok <==> old(lore).Some? && 0 <= index < |old(lore).value|
      ensures ok ==> lore == Some(old(lore).value[index := line])
      ensures !ok ==> lore == old(lore)
    {
      ok := false;
      if lore.Some? {
        var lines := lore.value;
        if |lines| > 0 && 0 <= index && index < |lines| {
          lines := lines[index := line];
          lore := Some(lines);
          ok := true;
        }
      }
    }

    /** removeLore: false when the item has no lore; otherwise removes line
        index and returns true. The index is not checked, so an index outside
        the list throws and leaves the lore as it was. */
    method RemoveLore(index: int) returns (r: Result<bool, LoreError>)
      modifies this
      ensures old(lore).None? ==> r == Ok(false) && lore == old(lore)
      ensures old(lore).Some? && !(0 <= index < |old(lore).value|) ==>
        r == Err(IndexOutOfBounds(index, |old(lore).value|)) && lore == old(lore)
      ensures old(lore).Some? && 0 <= index < |old(lore).value| ==>
        r == Ok(true) && lore == Some(RemoveAt(old(lore).value, index))
    {
      if lore.Some? {
        var lines := lore.value;
        if !(0 <= index < |lines|) {
          return Err(IndexOutOfBounds(index, |lines|));
        }
        lines := RemoveAt(lines, index);
        lore := Some(lines);
        return Ok(true);
      }
      return Ok(false);
    }

    /** addItemLore: appends a line, starting from an empty list when the item has no lore. */
    method AddItemLore(line: string)
      modifies this
      ensures old(lore).Some? ==> lore == Some(old(lore).value + [line])
      ensures old(lore).None? ==> lore == Some([line])
    {
      var lines: seq<string> := [];
      if lore.Some? {
        lines := lore.value;
      }
      lines := lines + [line];
      assert old(lore).None? ==> lines == [line];
      lore := Some(lines);
    }
  }

  /** addItemLore followed by removeLore of the last line restores the lines,
      though an item that had no lore ends with an empty lore list. */
  method AddThenRemoveLast(item: ItemStack, line: string) returns (r: Result<bool, LoreError>)
    modifies item
    ensures r == Ok(true)
    ensures old(item.lore).Some? ==> item.lore == old(item.lore)
    ensures old(item.lore).None? ==> item.lore == Some([])
  {
    var before := if item.lore.Some? then item.lore.value else [];
    item.AddItemLore(line);
    r := item.RemoveLore(|before|);
    RemoveAtUndoesAppend(before, line);
  }
}
