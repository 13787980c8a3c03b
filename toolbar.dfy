/** `ToolbarPlugin` of src/components/Toolbar.tsx: it holds a `blockType`
    state initialised to "paragraph", never calls its setter, and hands that
    value to the block-format dropdown. So in this application the dropdown
    always runs under the paragraph block type, whatever the document holds. */
module Toolbar {

  import opened Options
  import BT = BlockTypes
  import opened HeadingToolbar

  /** The `blockType` the toolbar passes to the dropdown on every render. */
  const ToolbarBlockType: BT.BlockType := BT.Paragraph

  /** The initial state value "paragraph" is a key of the table, and it is
      the key of the block type the toolbar passes on. */
  lemma ToolbarBlockTypeIsParagraph()
    ensures BT.FromKey("paragraph") == Some(ToolbarBlockType)
    ensures BT.BlockName(ToolbarBlockType) == "Normal"
  {
  }

  /** Under the toolbar's block type, choosing a heading on a formattable
      selection always requests that heading. */
  lemma HeadingAlwaysRequested(s: State, h: HeadingTagType)
    ensures Step(s, ToolbarBlockType, ChooseHeading(h, true)).sent == [SetHeading(h)]
  {
    FormatHeadingRequest(s, ToolbarBlockType, h, true);
  }

  /** Under the toolbar's block type, the list options always insert a list. */
  lemma ListsAlwaysInsert(s: State)
    ensures Step(s, ToolbarBlockType, ChooseBulletList).sent == [InsertUnordered]
    ensures Step(s, ToolbarBlockType, ChooseNumberedList).sent == [InsertOrdered]
  {
  }

  /** However the user drives the dropdown inside this toolbar, the host
      editor never receives a remove-list request. */
  lemma {:induction false} NeverRemovesList(s: State, events: seq<Event>)
    ensures RemoveList !in Run(s, ToolbarBlockType, events).sent
    decreases |events|
  {
    if events != [] {
      var first := Step(s, ToolbarBlockType, events[0]);
      NeverRemovesList(first.state, events[1..]);
      assert RemoveList !in first.sent;
    }
  }

  /** Opening the menu and choosing "Heading 2" on a formattable selection
      requests the heading and closes the menu; the button still shows
      "Normal", because the heading handler does not assign the option shown. */
  lemma ScenarioHeading2()
    ensures Run(Initial, ToolbarBlockType, [ClickToggle, ChooseHeading(H2, true)])
         == Outcome(State(false, Tags[0]), [SetHeading(H2)])
  {
    var events := [ClickToggle, ChooseHeading(H2, true)];
    assert events[1..] == [ChooseHeading(H2, true)];
    assert events[1..][1..] == [];
  }

  /** The same scenario driven through the controller object. */
  method ClickHeading2() returns (d: HeadingToolbarPlugin)
    ensures fresh(d) && d.Valid()
    ensures !d.isOpen && d.selected == Tags[0] && d.sent == [SetHeading(H2)]
  {
    d := new HeadingToolbarPlugin();
    d.Toggle();
    assert d.isOpen;
    d.HandleClickOutside(true, true);
    d.FormatHeading(ToolbarBlockType, H2, true);
  }

}
