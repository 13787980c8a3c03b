/** The block types the toolbar knows about and the display name of each:
    the object `blockTypeToBlockName` of src/components/Toolbar.tsx. Its keys
    form the TypeScript type `keyof typeof blockTypeToBlockName`, which is the
    type of the `blockType` property handed to the block-format dropdown. */
module BlockTypes {

  import opened Options

  /** One constructor per key of the table, in the table's order. */
  datatype BlockType =
    | Bullet | Check | Code
    | H1 | H2 | H3 | H4 | H5 | H6
    | Number | Paragraph | Quote

  /** Every block type, in the order the table lists its keys. */
  const AllBlockTypes: seq<BlockType> :=
    [Bullet, Check, Code, H1, H2, H3, H4, H5, H6, Number, Paragraph, Quote]

  /** The table itself, as the object literal writes it: key to display name. */
  const Table: map<string, string> := map[
    "bullet" := "Bulleted List",
    "check" := "Check List",
    "code" := "Code Block",
    "h1" := "Heading 1",
    "h2" := "Heading 2",
    "h3" := "Heading 3",
    "h4" := "Heading 4",
    "h5" := "Heading 5",
    "h6" := "Heading 6",
    "number" := "Numbered List",
    "paragraph" := "Normal",
    "quote" := "Quote"
  ]

  /** The key of the table that names a block type. */
  function Key(b: BlockType): (k: string)
    ensures k in Table
  {
    match b
    case Bullet => "bullet"
    case Check => "check"
    case Code => "code"
    case H1 => "h1"
    case H2 => "h2"
    case H3 => "h3"
    case H4 => "h4"
    case H5 => "h5"
    case H6 => "h6"
    case Number => "number"
    case Paragraph => "paragraph"
    case Quote => "quote"
  }

  /** The display name the table stores under a block type's key. */
  function BlockName(b: BlockType): (name: string)
    ensures Table[Key(b)] == name
  {
    match b
    case Bullet => "Bulleted List"
    case Check => "Check List"
    case Code => "Code Block"
    case H1 => "Heading 1"
    case H2 => "Heading 2"
    case H3 => "Heading 3"
    case H4 => "Heading 4"
    case H5 => "Heading 5"
    case H6 => "Heading 6"
    case Number => "Numbered List"
    case Paragraph => "Normal"
    case Quote => "Quote"
  }

  /** Reads a string as a member of the key type `keyof typeof
      blockTypeToBlockName`: the block type whose key it is, or None when the
      string is not one of the table's keys. This is the check TypeScript
      makes on the initial value "paragraph" of the toolbar's state. */
  function FromKey(key: string): (r: Option<BlockType>)
    ensures r.Some? <==> key in Table
    ensures r.Some? ==> Key(r.value) == key
  {
    if key == "bullet" then Some(Bullet)
    else if key == "check" then Some(Check)
    else if key == "code" then Some(Code)
    else if key == "h1" then Some(H1)
    else if key == "h2" then Some(H2)
    else if key == "h3" then Some(H3)
    else if key == "h4" then Some(H4)
    else if key == "h5" then Some(H5)
    else if key == "h6" then Some(H6)
    else if key == "number" then Some(Number)
    else if key == "paragraph" then Some(Paragraph)
    else if key == "quote" then Some(Quote)
    else None
  }

  /** Every key leads back to its own block type: `FromKey` inverts `Key`. */
  lemma KeyRoundTrip(b: BlockType)
    ensures FromKey(Key(b)) == Some(b)
  {
    match b
    case Bullet =>
    case Check =>
    case Code =>
    case H1 =>
    case H2 =>
    case H3 =>
    case H4 =>
    case H5 =>
    case H6 =>
    case Number =>
    case Paragraph =>
    case Quote =>
  }

  /** The table is total over exactly twelve block types, each listed once. */
  lemma TableHasTwelveEntries()
    ensures |AllBlockTypes| == 12
    ensures Table.Keys == set b | b in AllBlockTypes :: Key(b)
    ensures forall b: BlockType :: b in AllBlockTypes
    ensures forall i, j :: 0 <= i < j < |AllBlockTypes| ==> AllBlockTypes[i] != AllBlockTypes[j]
  {
    forall b: BlockType ensures b in AllBlockTypes {
      match b
      case Bullet => assert AllBlockTypes[0] == b;
      case Check => assert AllBlockTypes[1] == b;
      case Code => assert AllBlockTypes[2] == b;
      case H1 => assert AllBlockTypes[3] == b;
      case H2 => assert AllBlockTypes[4] == b;
      case H3 => assert AllBlockTypes[5] == b;
      case H4 => assert AllBlockTypes[6] == b;
      case H5 => assert AllBlockTypes[7] == b;
      case H6 => assert AllBlockTypes[8] == b;
      case Number => assert AllBlockTypes[9] == b;
      case Paragraph => assert AllBlockTypes[10] == b;
      case Quote => assert AllBlockTypes[11] == b;
    }
    forall k | k in Table ensures k in set b | b in AllBlockTypes :: Key(b) {
      var b := FromKey(k).value;
      assert Key(b) == k && b in AllBlockTypes;
    }
  }

  /** No two block types share a display name. */
  lemma BlockNamesDistinct(a: BlockType, b: BlockType)
    ensures BlockName(a) == BlockName(b) ==> a == b
  {
  }

  /** No two block types share a key. */
  lemma KeysDistinct(a: BlockType, b: BlockType)
    ensures Key(a) == Key(b) ==> a == b
  {
    KeyRoundTrip(a);
    KeyRoundTrip(b);
  }

  /** The display names of the block types the dropdown offers. */
  lemma NamesOfMenuBlockTypes()
    ensures BlockName(Paragraph) == "Normal"
    ensures BlockName(H1) == "Heading 1"
    ensures BlockName(H2) == "Heading 2"
    ensures BlockName(H3) == "Heading 3"
    ensures BlockName(Bullet) == "Bulleted List"
    ensures BlockName(Number) == "Numbered List"
  {
  }

}
