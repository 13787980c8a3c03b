/** The block-format dropdown of src/plugins/HeadingToolbarPlugin.tsx: the
    static catalogue of menu options, the controller's two pieces of state
    (whether the menu is open and which option the button shows) and the six
    handlers that drive it. Requests to the host editor are recorded as
    abstract commands; the editor's own document model is not part of this
    model. */
module HeadingToolbar {

  import opened Options
  import BT = BlockTypes

  // ---------------------------------------------------------------------------
  // The option catalogue

  datatype HeadingTagType = H1 | H2 | H3

  datatype ListTagType = Ul | Ol

  /** The optional `tag` of a menu option. */
  datatype TagValue = HeadingTag(heading: HeadingTagType) | ListTag(list: ListTagType)

  /** The icon of a menu option, taken as an opaque label. */
  datatype Icon =
    | BsTextParagraph
    | LuHeading1 | LuHeading2 | LuHeading3
    | AiOutlineUnorderedList | AiOutlineOrderedList

  /** A menu option: the paragraph option has no tag, the others do. */
  datatype Tag = Tag(id: nat, tag: Option<TagValue>, icon: Icon, name: string)

  const PTag: seq<Tag> := [Tag(1, None, BsTextParagraph, "Normal")]

  const HTags: seq<Tag> := [
    Tag(1, Some(HeadingTag(H1)), LuHeading1, "Heading 1"),
    Tag(2, Some(HeadingTag(H2)), LuHeading2, "Heading 2"),
    Tag(3, Some(HeadingTag(H3)), LuHeading3, "Heading 3")
  ]

  const ListTags: seq<Tag> := [
    Tag(1, Some(ListTag(Ul)), AiOutlineUnorderedList, "Bullet List"),
    Tag(2, Some(ListTag(Ol)), AiOutlineOrderedList, "Numbered List")
  ]

  /** The catalogue: the three groups spread one after the other. */
  const Tags: seq<Tag> := PTag + HTags + ListTags

  /** The block type a heading tag names. */
  function HeadingBlock(h: HeadingTagType): (b: BT.BlockType)
    ensures BT.Key(b) == match h case H1 => "h1" case H2 => "h2" case H3 => "h3"
  {
    match h
    case H1 => BT.H1
    case H2 => BT.H2
    case H3 => BT.H3
  }

  /** The catalogue has six options, and the indices the handlers use pick
      the paragraph, bullet-list and numbered-list options. Options are told
      apart by their names; their ids are not unique across groups. */
  lemma CatalogueLayout()
    ensures |Tags| == 6
    ensures Tags[0].tag == None && Tags[0].name == "Normal"
    ensures Tags[4].tag == Some(ListTag(Ul)) && Tags[4].name == "Bullet List"
    ensures Tags[5].tag == Some(ListTag(Ol)) && Tags[5].name == "Numbered List"
    ensures forall i, j :: 0 <= i < j < |Tags| ==> Tags[i].name != Tags[j].name
    ensures Tags[0].id == Tags[1].id == Tags[4].id == 1
  {
  }

  /** Five of the six option names agree with the block-type table; the
      bullet-list option says "Bullet List" where the table says
      "Bulleted List". */
  lemma CatalogueNamesAgainstTable()
    ensures Tags[0].name == BT.BlockName(BT.Paragraph)
    ensures forall k :: 1 <= k <= 3 ==>
      Tags[k].tag.Some? && Tags[k].tag.value.HeadingTag? &&
      Tags[k].name == BT.BlockName(HeadingBlock(Tags[k].tag.value.heading))
    ensures Tags[5].name == BT.BlockName(BT.Number)
    ensures Tags[4].name != BT.BlockName(BT.Bullet)
  {
    assert Tags[1] == HTags[0] && Tags[2] == HTags[1] && Tags[3] == HTags[2];
  }

  // ---------------------------------------------------------------------------
  // Requests to the host editor, user events and the controller's state

  /** What the controller asks of the host editor: convert the selection's
      blocks to a paragraph or a heading, or dispatch one of the list commands. */
  datatype Command =
    | SetParagraph
    | SetHeading(h: HeadingTagType)
    | InsertUnordered
    | InsertOrdered
    | RemoveList

  /** One user interaction. `formattable` says whether the editor's selection
      is a range or grid selection when the update runs; a mouse-down carries
      whether the dropdown's root element is mounted and whether the event's
      target lies inside it. */
  datatype Event =
    | ClickToggle
    | ChooseParagraph(formattable: bool)
    | ChooseHeading(h: HeadingTagType, formattable: bool)
    | ChooseBulletList
    | ChooseNumberedList
    | MouseDown(rootMounted: bool, targetInside: bool)

  datatype State = State(isOpen: bool, selected: Tag)

  /** What one handler or a run of handlers does: the new state and the
      requests sent to the host editor, in order. */
  datatype Outcome = Outcome(state: State, sent: seq<Command>)

  const Initial: State := State(false, Tags[0])

  /** The options a handler ever assigns to `selectedOption`. */
  const Assignable: set<Tag> := {Tags[0], Tags[4], Tags[5]}

  /** The effect of one event, given the current `blockType` property. */
  function Step(s: State, blockType: BT.BlockType, e: Event): (o: Outcome)
    ensures |o.sent| <= 1
    ensures s.selected in Assignable ==> o.state.selected in Assignable
    ensures (e.ClickToggle? || e.MouseDown?) ==> o.sent == []
    ensures (e.ChooseBulletList? || e.ChooseNumberedList?) ==> |o.sent| == 1
    ensures e.ClickToggle? ==> o.state.isOpen != s.isOpen
    ensures !e.ClickToggle? ==> o.state == s || !o.state.isOpen
    ensures (e.ClickToggle? || e.MouseDown? || e.ChooseHeading?) ==> o.state.selected == s.selected
  {
    match e
    case ClickToggle =>
      Outcome(s.(isOpen := !s.isOpen), [])
    case ChooseParagraph(formattable) =>
      Outcome(State(false, Tags[0]), if formattable then [SetParagraph] else [])
    case ChooseHeading(h, formattable) =>
      Outcome(s.(isOpen := false),
              if blockType != HeadingBlock(h) && formattable then [SetHeading(h)] else [])
    case ChooseBulletList =>
      Outcome(State(false, Tags[4]), if blockType != BT.Bullet then [InsertUnordered] else [RemoveList])
    case ChooseNumberedList =>
      Outcome(State(false, Tags[5]), if blockType != BT.Number then [InsertOrdered] else [RemoveList])
    case MouseDown(rootMounted, targetInside) =>
      Outcome(if rootMounted && !targetInside then s.(isOpen := false) else s, [])
  }

  /** A sequence of events handled one after the other, all under the same
      `blockType`: the final state and every request sent on the way. */
  function Run(s: State, blockType: BT.BlockType, events: seq<Event>): (o: Outcome)
    ensures |o.sent| <= |events|
    ensures s.selected in Assignable ==> o.state.selected in Assignable
    decreases |events|
  {
    if events == [] then Outcome(s, [])
    else
      var first := Step(s, blockType, events[0]);
      var rest := Run(first.state, blockType, events[1..]);
      Outcome(rest.state, first.sent + rest.sent)
  }

  // ---------------------------------------------------------------------------
  // Properties of the handlers

  /** The options a handler assigns all belong to the catalogue. */
  lemma AssignableInCatalogue()
    ensures Assignable <= set t | t in Tags
    ensures Initial.selected in Assignable
  {
  }

  /** Whatever the user does, the option shown is the initial one or one a
      handler assigned, and so always an entry of the catalogue; it is never
      one of the heading options. */
  lemma {:induction false} SelectedAlwaysInCatalogue(blockType: BT.BlockType, events: seq<Event>)
    ensures Run(Initial, blockType, events).state.selected in Assignable
    ensures Run(Initial, blockType, events).state.selected in Tags
    ensures Run(Initial, blockType, events).state.selected.tag.None?
         || Run(Initial, blockType, events).state.selected.tag.value.ListTag?
  {
    AssignableInCatalogue();
    var t := Run(Initial, blockType, events).state.selected;
    assert t == Tags[0] || t == Tags[4] || t == Tags[5];
  }

  /** Toggling flips `isOpen` and nothing else; toggling twice restores the state. */
  lemma ToggleTwiceRestores(s: State, blockType: BT.BlockType)
    ensures Step(s, blockType, ClickToggle) == Outcome(State(!s.isOpen, s.selected), [])
    ensures Run(s, blockType, [ClickToggle, ClickToggle]) == Outcome(s, [])
  {
    assert [ClickToggle, ClickToggle][1..] == [ClickToggle];
  }

  /** Choosing "Normal" requests a paragraph exactly when the selection is
      formattable, shows the "Normal" option and closes the menu; a second
      choice leaves the state as the first left it. */
  lemma FormatParagraphIdempotent(s: State, blockType: BT.BlockType, f1: bool, f2: bool)
    ensures Step(s, blockType, ChooseParagraph(f1)).sent == (if f1 then [SetParagraph] else [])
    ensures Step(s, blockType, ChooseParagraph(f1)).state == State(false, Tags[0])
    ensures Step(Step(s, blockType, ChooseParagraph(f1)).state, blockType, ChooseParagraph(f2)).state
         == Step(s, blockType, ChooseParagraph(f1)).state
  {
  }

  /** Choosing a heading requests it exactly when the current block is not
      already that heading and the selection is formattable; otherwise
      nothing is sent. The menu closes and the option shown stays as it was. */
  lemma FormatHeadingRequest(s: State, blockType: BT.BlockType, h: HeadingTagType, formattable: bool)
    ensures Step(s, blockType, ChooseHeading(h, formattable)).sent == [SetHeading(h)]
        <==> blockType != HeadingBlock(h) && formattable
    ensures Step(s, blockType, ChooseHeading(h, formattable)).sent == []
        <==> blockType == HeadingBlock(h) || !formattable
    ensures Step(s, blockType, ChooseHeading(h, formattable)).state == State(false, s.selected)
  {
  }

  /** Choosing "Bullet List" sends exactly one list command: remove-list when
      the current block is already a bullet list, insert-unordered otherwise. */
  lemma FormatBulletListRequest(s: State, blockType: BT.BlockType)
    ensures Step(s, blockType, ChooseBulletList).sent == [RemoveList] <==> blockType == BT.Bullet
    ensures Step(s, blockType, ChooseBulletList).sent == [InsertUnordered] <==> blockType != BT.Bullet
    ensures Step(s, blockType, ChooseBulletList).state == State(false, Tags[4])
  {
  }

  /** Choosing "Numbered List" sends exactly one list command: remove-list
      when the current block is already a numbered list, insert-ordered otherwise. */
  lemma FormatNumberedListRequest(s: State, blockType: BT.BlockType)
    ensures Step(s, blockType, ChooseNumberedList).sent == [RemoveList] <==> blockType == BT.Number
    ensures Step(s, blockType, ChooseNumberedList).sent == [InsertOrdered] <==> blockType != BT.Number
    ensures Step(s, blockType, ChooseNumberedList).state == State(false, Tags[5])
  {
  }

  /** A mouse-down closes the menu exactly when the root is mounted and the
      target is outside it; it never sends anything or changes the option
      shown, and on a closed menu it does nothing at all. */
  lemma MouseDownCloses(s: State, blockType: BT.BlockType, rootMounted: bool, targetInside: bool)
    ensures Step(s, blockType, MouseDown(rootMounted, targetInside)).sent == []
    ensures Step(s, blockType, MouseDown(rootMounted, targetInside)).state.selected == s.selected
    ensures Step(s, blockType, MouseDown(rootMounted, targetInside)).state.isOpen
        <==> s.isOpen && !(rootMounted && !targetInside)
    ensures !s.isOpen ==> Step(s, blockType, MouseDown(rootMounted, targetInside)) == Outcome(s, [])
  {
  }

  /** Toggling and mouse-downs alone never send a request and never change
      the option shown. */
  lemma {:induction false} NoFormattingNoRequests(s: State, blockType: BT.BlockType, events: seq<Event>)
    requires forall i :: 0 <= i < |events| ==> events[i].ClickToggle? || events[i].MouseDown?
    ensures Run(s, blockType, events).sent == []
    ensures Run(s, blockType, events).state.selected == s.selected
    decreases |events|
  {
    if events != [] {
      NoFormattingNoRequests(Step(s, blockType, events[0]).state, blockType, events[1..]);
    }
  }

  /** With the menu open on a bullet-list block, choosing "Bullet List"
      sends a remove-list request (not an insert), shows the bullet-list
      option and closes the menu. */
  lemma ScenarioRemoveBulletList(t: Tag)
    ensures Run(State(true, t), BT.Bullet, [ChooseBulletList]) == Outcome(State(false, Tags[4]), [RemoveList])
  {
    assert [ChooseBulletList][1..] == [];
  }

  // ---------------------------------------------------------------------------
  // The controller

  /** The `HeadingToolbarPlugin` component: its two state hooks as fields and
      its handlers as methods. Each handler receives the `blockType` property
      as it stands when the handler runs. The ghost field `sent` records every
      request to the host editor. */
  class HeadingToolbarPlugin {
    var isOpen: bool
    var selected: Tag
    ghost var sent: seq<Command>

    ghost predicate Valid()
      reads this
    {
      selected in Assignable
    }

    function Current(): State
      reads this
    {
      State(isOpen, selected)
    }

    /** A freshly mounted dropdown: closed, showing "Normal", nothing sent. */
    constructor ()
      ensures Valid()
      ensures Current() == Initial && sent == []
      ensures !isOpen && selected.name == "Normal"
    {
      isOpen := false;
      selected := Tags[0];
      sent := [];
    }

    /** The dropdown button's `onClick`. */
    method Toggle()
      requires Valid()
      modifies this
      ensures Valid()
      ensures isOpen == !old(isOpen) && selected == old(selected) && sent == old(sent)
    {
      isOpen := !isOpen;
    }

    /** `formatParagraph`. */
    method FormatParagraph(formattable: bool)
      requires Valid()
      modifies this
      ensures Valid()
      ensures sent == old(sent) + (if formattable then [SetParagraph] else [])
      ensures !isOpen && selected == Tags[0]
    {
      if formattable {
        sent := sent + [SetParagraph];
      }
      selected := Tags[0];
      isOpen := false;
    }

    /** `formatHeading(headingSize)`: it closes the menu but does not assign
        the option shown. */
    method FormatHeading(blockType: BT.BlockType, headingSize: HeadingTagType, formattable: bool)
      requires Valid()
      modifies this
      ensures Valid()
      ensures sent == old(sent) + (if blockType != HeadingBlock(headingSize) && formattable
                                   then [SetHeading(headingSize)] else [])
      ensures !isOpen && selected == old(selected)
    {
      if blockType != HeadingBlock(headingSize) {
        if formattable {
          sent := sent + [SetHeading(headingSize)];
        }
      }
      isOpen := false;
    }

    /** `formatBulletList`. */
    method FormatBulletList(blockType: BT.BlockType)
      requires Valid()
      modifies this
      ensures Valid()
      ensures sent == old(sent) + (if blockType != BT.Bullet then [InsertUnordered] else [RemoveList])
      ensures !isOpen && selected == Tags[4]
    {
      if blockType != BT.Bullet {
        sent := sent + [InsertUnordered];
      } else {
        sent := sent + [RemoveList];
      }
      selected := Tags[4];
      isOpen := false;
    }

    /** `formatNumberedList`. */
    method FormatNumberedList(blockType: BT.BlockType)
      requires Valid()
      modifies this
      ensures Valid()
      ensures sent == old(sent) + (if blockType != BT.Number then [InsertOrdered] else [RemoveList])
      ensures !isOpen && selected == Tags[5]
    {
      if blockType != BT.Number {
        sent := sent + [InsertOrdered];
      } else {
        sent := sent + [RemoveList];
      }
      selected := Tags[5];
      isOpen := false;
    }

    /** `handleClickOutside`, run for every mouse-down on the document. */
    method HandleClickOutside(rootMounted: bool, targetInside: bool)
      requires Valid()
      modifies this
      ensures Valid()
      ensures isOpen == (old(isOpen) && !(rootMounted && !targetInside))
      ensures selected == old(selected) && sent == old(sent)
    {
      if rootMounted && !targetInside {
        isOpen := false;
      }
    }

    /** Handles one event: the handler the event names, with its effect on
        the state and the log being exactly what `Step` says. */
    method Handle(blockType: BT.BlockType, e: Event)
      requires Valid()
      modifies this
      ensures Valid()
      ensures Current() == Step(old(Current()), blockType, e).state
      ensures sent == old(sent) + Step(old(Current()), blockType, e).sent
    {
      match e
      case ClickToggle => Toggle();
      case ChooseParagraph(f) => FormatParagraph(f);
      case ChooseHeading(h, f) => FormatHeading(blockType, h, f);
      case ChooseBulletList => FormatBulletList(blockType);
      case ChooseNumberedList => FormatNumberedList(blockType);
      case MouseDown(r, i) => HandleClickOutside(r, i);
    }
  }

}
