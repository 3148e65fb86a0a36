/** The skill-list codec shared by the blue- and white-collar profile editors:
    the stored comma-separated `skills` column is split into the checkbox
    selection and the free-text "Other" field on load, a checkbox toggles one
    skill, and the selection is joined back with ", " on save. */
module SkillLists {
  import opened Optional
  import opened Seqs
  import opened Text

  /** Which editor: the two pages differ in how they treat a stored literal "Other". */
  datatype Collar = Blue | White

  const OtherOption: string := "Other"

  /** The checkbox options of the blue-collar editor, in display order. */
  const BlueOptions: seq<string> := [
    "Electrician", "Plumber", "Carpenter", "Painter", "Construction worker",
    "Mason / Tiler", "Welder", "Mechanic (cars)", "Mechanic (trucks / buses)",
    "AC / Refrigeration technician", "Maintenance technician", "Warehouse worker",
    "Forklift driver", "Delivery driver (car)", "Delivery driver (motorbike/scooter)",
    "Truck driver", "Security guard", "Cleaner / Housekeeping", "Gardener / Landscaping",
    "Factory worker / Machine operator", "Cook", "Kitchen helper", "Waiter / Service staff",
    "Barista", "Hairdresser", "Barber", "Tailor / Sewing", "Decorator / Events setup",
    "Call center (outbound / inbound)", "Cashier", "Sales (field / shops)", "Storekeeper",
    "Plaster / Gypsum worker", "Aluminium / PVC worker", "Woodworker / Furniture assembly",
    "Handyman / General repair", "Other"
  ]

  /** The checkbox options of the white-collar editor, in display order. */
  const WhiteOptions: seq<string> := [
    "Administrative Assistant", "Accountant", "Finance / Banking", "Customer Service",
    "Office Manager", "Receptionist", "Data Entry", "Human Resources", "Project Coordinator",
    "Marketing", "Sales Representative", "Telemarketing / Call Center", "IT Support",
    "Software Developer", "Graphic Designer", "Content Writer", "Teacher / Instructor",
    "Nurse / Medical Assistant", "Pharmacist Assistant", "Social Media Manager",
    "Business Development", "Quality Control / QA", "Purchasing / Procurement",
    "Logistics Coordinator", "Other"
  ]

  /** The option list of each editor. */
  function Options(collar: Collar): seq<string> {
    match collar
    case Blue => BlueOptions
    case White => WhiteOptions
  }

  /** Whether a stored token becomes a ticked checkbox on load, given the editor's
      option list. The blue page asks `all.has(s) && s !== "Other"`, the white page
      only `includes(s)`. */
  predicate IsKnown(collar: Collar, options: seq<string>, s: string) {
    match collar
    case Blue => s in options && s != OtherOption
    case White => s in options
  }

  function KnownFn(collar: Collar, options: seq<string>): string -> bool {
    s => IsKnown(collar, options, s)
  }

  /** `filter(Boolean)` on strings: drops "". */
  function NonBlankFn(): string -> bool {
    s => s != ""
  }

  /** `filter(x => x !== v)`. */
  function Without(v: string): string -> bool {
    s => s != v
  }

  /** A token as load produces it: not empty, no comma, no surrounding white space. */
  predicate IsToken(s: string) {
    s != "" && ',' !in s && Trimmed(s)
  }

  /** `(skills || "").split(",").map(s => s.trim()).filter(Boolean)`. */
  function Parse(stored: Option<string>): seq<string> {
    Filter(TrimAll(Split(OrEmpty(stored), ',')), NonBlankFn())
  }

  /** The tokens load ticks, in stored order. */
  function KnownOf(collar: Collar, options: seq<string>, raw: seq<string>): seq<string> {
    Filter(raw, KnownFn(collar, options))
  }

  /** The tokens load sends to the "Other" text field, in stored order. */
  function OthersOf(collar: Collar, options: seq<string>, raw: seq<string>): seq<string> {
    Filter(raw, Not(KnownFn(collar, options)))
  }

  /** The editor state the skill part of the form holds. */
  datatype SkillForm = SkillForm(selected: seq<string>, otherSkill: string)

  /** The form after load: the known tokens, then "Other" when there are extras;
      the extras joined with ", " in the text field, which otherwise keeps its
      initial "". */
  function Loaded(collar: Collar, options: seq<string>, stored: Option<string>): SkillForm {
    var raw := Parse(stored);
    var others := OthersOf(collar, options, raw);
    if others == [] then SkillForm(KnownOf(collar, options, raw), "")
    else SkillForm(KnownOf(collar, options, raw) + [OtherOption], Join(others, ", "))
  }

  /** The `forEach` that pushes each token onto one of the two lists. */
  method Partition(collar: Collar, options: seq<string>, raw: seq<string>) returns (known: seq<string>, others: seq<string>)
    ensures known == KnownOf(collar, options, raw)
    ensures others == OthersOf(collar, options, raw)
  {
    known, others := [], [];
    for i := 0 to |raw|
      invariant known == KnownOf(collar, options, raw[..i])
      invariant others == OthersOf(collar, options, raw[..i])
    {
      assert raw[..i + 1][..i] == raw[..i];
      if IsKnown(collar, options, raw[i]) {
        known := known + [raw[i]];
      } else {
        others := others + [raw[i]];
      }
    }
    assert raw[..|raw|] == raw;
  }

  /** The form after a load over a form whose text field held `otherBefore`: without
      extras `setOtherSkill` is not called and the text field keeps what it held. */
  function LoadedOver(collar: Collar, options: seq<string>, stored: Option<string>, otherBefore: string): SkillForm {
    var form := Loaded(collar, options, stored);
    if OthersOf(collar, options, Parse(stored)) == [] then form.(otherSkill := otherBefore) else form
  }

  /** The skill part of `load`: parse, partition, then tick "Other" and fill the text
      field when there are extras. */
  method LoadSkills(collar: Collar, options: seq<string>, stored: Option<string>, otherBefore: string)
    returns (form: SkillForm)
    ensures form == LoadedOver(collar, options, stored, otherBefore)
  {
    var raw := Parse(stored);
    var known, others := Partition(collar, options, raw);
    if |others| > 0 {
      known := known + [OtherOption];
      form := SkillForm(known, Join(others, ", "));
    } else {
      form := SkillForm(known, otherBefore);
    }
  }

  /** The pieces of the "Other" text field that save appends: the blue page keeps
      blank pieces, the white page drops them. */
  function OtherPieces(collar: Collar, otherSkill: string): seq<string> {
    var pieces := TrimAll(Split(otherSkill, ','));
    match collar
    case Blue => pieces
    case White => Filter(pieces, NonBlankFn())
  }

  /** The list save joins: the selection without "Other", then the pieces of the text
      field when "Other" is ticked and the field is not blank. */
  function SkillsToSave(collar: Collar, form: SkillForm): seq<string> {
    var kept := Filter(form.selected, Without(OtherOption));
    if OtherOption in form.selected && Trim(form.otherSkill) != "" then
      kept + OtherPieces(collar, form.otherSkill)
    else kept
  }

  /** The value written to the `skills` column. */
  function SavedSkills(collar: Collar, form: SkillForm): string {
    Join(SkillsToSave(collar, form), ", ")
  }

  /** `prev.includes(skill) ? prev.filter(x => x !== skill) : [...prev, skill]`. */
  function Toggle(selected: seq<string>, skill: string): seq<string> {
    if skill in selected then Filter(selected, Without(skill)) else selected + [skill]
  }

  // ----- load -----

  /** Every parsed token is non-empty, comma-free and trimmed. */
  lemma ParsedAreTokens(stored: Option<string>)
    ensures forall t :: t in Parse(stored) ==> IsToken(t)
  {
    var pieces := Split(OrEmpty(stored), ',');
    var trimmed := TrimAll(pieces);
    FilterMembers(trimmed, NonBlankFn());
    TrimAllAt(pieces);
    forall t | t in Parse(stored)
      ensures IsToken(t)
    {
      var j :| 0 <= j < |trimmed| && trimmed[j] == t;
      TrimInside(pieces[j]);
    }
  }

  /** A null, empty or all-comma column loads no token. */
  lemma NothingStoredNothingLoaded(stored: Option<string>)
    requires stored == None || stored == Some("") || stored == Some(",")
    ensures Parse(stored) == []
  {
    if stored == Some(",") {
      assert OrEmpty(stored) == [','];
      assert Split([','], ',') == ["", ""];
    }
  }

  /** Each token lands in exactly one of the two lists, decided by IsKnown, and
      together they hold every token. */
  lemma PartitionIsExact(collar: Collar, options: seq<string>, raw: seq<string>)
    ensures forall t :: t in KnownOf(collar, options, raw) <==> t in raw && IsKnown(collar, options, t)
    ensures forall t :: t in OthersOf(collar, options, raw) <==> t in raw && !IsKnown(collar, options, t)
    ensures |KnownOf(collar, options, raw)| + |OthersOf(collar, options, raw)| == |raw|
  {
    FilterMembers(raw, KnownFn(collar, options));
    FilterMembers(raw, Not(KnownFn(collar, options)));
    FilterPartition(raw, KnownFn(collar, options));
  }

  /** A stored literal "Other" is an extra on the blue page and a ticked box on the
      white page. */
  lemma LiteralOtherDiffers(raw: seq<string>)
    requires OtherOption in raw
    ensures OtherOption in OthersOf(Blue, Options(Blue), raw) && OtherOption !in KnownOf(Blue, Options(Blue), raw)
    ensures OtherOption in KnownOf(White, Options(White), raw) && OtherOption !in OthersOf(White, Options(White), raw)
  {
    assert WhiteOptions[24] == OtherOption;
    PartitionIsExact(Blue, Options(Blue), raw);
    PartitionIsExact(White, Options(White), raw);
  }

  /** After load, "Other" is ticked iff there are extras (blue), or iff there are
      extras or a stored literal "Other" (white). */
  lemma OtherTickedAfterLoad(collar: Collar, stored: Option<string>)
    ensures collar == Blue ==>
      (OtherOption in Loaded(collar, Options(collar), stored).selected <==> OthersOf(collar, Options(collar), Parse(stored)) != [])
    ensures collar == White ==>
      (OtherOption in Loaded(collar, Options(collar), stored).selected <==>
         OthersOf(collar, Options(collar), Parse(stored)) != [] || OtherOption in Parse(stored))
  {
    var raw := Parse(stored);
    PartitionIsExact(collar, Options(collar), raw);
    assert WhiteOptions[24] == OtherOption;
  }

  // ----- toggle -----

  /** Toggling flips the toggled skill's membership and no other. */
  lemma ToggleFlipsMembership(selected: seq<string>, skill: string)
    ensures skill in Toggle(selected, skill) <==> skill !in selected
    ensures forall x :: x != skill ==> (x in Toggle(selected, skill) <==> x in selected)
  {
    FilterMembers(selected, Without(skill));
  }

  /** Toggling removes every copy of a present skill. */
  lemma ToggleRemovesAll(selected: seq<string>, skill: string)
    requires skill in selected
    ensures forall i :: 0 <= i < |Toggle(selected, skill)| ==> Toggle(selected, skill)[i] != skill
  {
  }

  /** The other entries keep their order. */
  lemma ToggleKeepsOrder(selected: seq<string>, skill: string)
    ensures Filter(Toggle(selected, skill), Without(skill)) == Filter(selected, Without(skill))
  {
    if skill in selected {
      var f := Filter(selected, Without(skill));
      FilterAllTrue(f, Without(skill));
    }
  }

  /** Ticking an unticked box and unticking it again restores the selection. */
  lemma ToggleTwiceRestores(selected: seq<string>, skill: string)
    requires skill !in selected
    ensures Toggle(Toggle(selected, skill), skill) == selected
  {
    var t := selected + [skill];
    assert skill in t;
    assert t[..|t| - 1] == selected;
    FilterAllTrue(selected, Without(skill));
  }

  /** Unticking a ticked box and ticking it again moves it to the end. */
  lemma ToggleTwiceReorders()
    ensures Toggle(Toggle(["Cook", "Barista"], "Cook"), "Cook") == ["Barista", "Cook"]
  {
    var s := ["Cook", "Barista"];
    assert "Cook" in s;
    assert s[..1] == ["Cook"];
    assert Filter(s, Without("Cook")) == ["Barista"];
  }

  // ----- save -----

  /** The text field is ignored unless "Other" is ticked, and "Other" itself is never
      saved from the checkboxes. */
  lemma SaveWithoutOther(collar: Collar, form: SkillForm)
    requires OtherOption !in form.selected
    ensures SkillsToSave(collar, form) == form.selected
  {
    FilterAllTrue(form.selected, Without(OtherOption));
  }

  /** The pieces of "Welding," are "Welding" and a blank one. */
  lemma TrailingCommaPieces()
    ensures TrimAll(Split("Welding,", ',')) == ["Welding", ""]
    ensures Trim("Welding,") != ""
  {
    var w := "Welding";
    assert Trimmed(w) by {
      assert w[0] == 'W' && w[|w| - 1] == 'g';
      assert !IsSpace('W') && !IsSpace('g');
    }
    assert "Welding," == w + [','] + "";
    SplitAppend(w, "", ',');
    SplitWithout(w, ',');
    TrimTrimmed(w);
    TrimAllCons(w, [""]);
    JoinedNotBlank([w, ""], ",");
    assert Join([w, ""], ",") == "Welding,";
  }

  /** The blue page saves a blank piece of the text field as an empty token. */
  lemma BlueKeepsBlankPiece()
    ensures SkillsToSave(Blue, SkillForm(["Other"], "Welding,")) == ["Welding", ""]
  {
    var f := SkillForm(["Other"], "Welding,");
    assert Filter(f.selected, Without(OtherOption)) == [] by {
      assert f.selected[..0] == [];
    }
    TrailingCommaPieces();
  }

  /** The white page drops it. */
  lemma WhiteDropsBlankPiece()
    ensures SkillsToSave(White, SkillForm(["Other"], "Welding,")) == ["Welding"]
  {
    var f := SkillForm(["Other"], "Welding,");
    assert Filter(f.selected, Without(OtherOption)) == [] by {
      assert f.selected[..0] == [];
    }
    TrailingCommaPieces();
    var pieces := ["Welding", ""];
    assert pieces[..1] == ["Welding"];
    assert Filter(pieces, NonBlankFn()) == ["Welding"];
  }

  /** The white save's pieces are tokens too. */
  lemma WhitePiecesAreNotBlank(otherSkill: string)
    ensures forall t :: t in OtherPieces(White, otherSkill) ==> t != ""
  {
    FilterMembers(TrimAll(Split(otherSkill, ',')), NonBlankFn());
  }

  /** The checkbox part of a loaded form saves back as its known tokens, less "Other". */
  lemma KeptAfterLoad(collar: Collar, options: seq<string>, stored: Option<string>)
    ensures Filter(Loaded(collar, options, stored).selected, Without(OtherOption))
         == Filter(KnownOf(collar, options, Parse(stored)), Without(OtherOption))
  {
    var known := KnownOf(collar, options, Parse(stored));
    FilterAppend(known, [OtherOption], Without(OtherOption));
  }

  /** The text field of a loaded form with extras saves back as those extras. */
  lemma PiecesAfterLoad(collar: Collar, options: seq<string>, stored: Option<string>)
    requires OthersOf(collar, options, Parse(stored)) != []
    ensures Trim(Join(OthersOf(collar, options, Parse(stored)), ", ")) != ""
    ensures OtherPieces(collar, Join(OthersOf(collar, options, Parse(stored)), ", ")) == OthersOf(collar, options, Parse(stored))
  {
    var raw := Parse(stored);
    var others := OthersOf(collar, options, raw);
    ParsedAreTokens(stored);
    FilterMembers(raw, Not(KnownFn(collar, options)));
    assert forall i :: 0 <= i < |others| ==> IsToken(others[i]) by {
      forall i | 0 <= i < |others|
        ensures IsToken(others[i])
      {
        assert others[i] in others;
      }
    }
    JoinedNotBlank(others, ", ");
    SplitJoinedList(others);
    if collar == White {
      FilterAllTrue(others, NonBlankFn());
    }
  }

  /** Loading and saving with no edits stores the known tokens without "Other", then
      the extras, each group in stored order. */
  lemma {:induction false} LoadSaveRoundTrip(collar: Collar, options: seq<string>, stored: Option<string>)
    ensures SkillsToSave(collar, Loaded(collar, options, stored))
         == Filter(KnownOf(collar, options, Parse(stored)), Without(OtherOption)) + OthersOf(collar, options, Parse(stored))
  {
    var raw := Parse(stored);
    var others := OthersOf(collar, options, raw);
    KeptAfterLoad(collar, options, stored);
    if others == [] {
      assert Trim(Loaded(collar, options, stored).otherSkill) == "";
    } else {
      PiecesAfterLoad(collar, options, stored);
    }
  }

  /** The blue page: no known token is "Other", so the round trip stores the known
      tokens and then the extras. */
  lemma BlueRoundTrip(options: seq<string>, stored: Option<string>)
    ensures SkillsToSave(Blue, Loaded(Blue, options, stored)) == KnownOf(Blue, options, Parse(stored)) + OthersOf(Blue, options, Parse(stored))
  {
    LoadSaveRoundTrip(Blue, options, stored);
    FilterAllTrue(KnownOf(Blue, options, Parse(stored)), Without(OtherOption));
  }

  /** The blue page: the round trip keeps every stored token, known ones first; a
      literal "Other" is kept among the extras. */
  lemma BlueRoundTripKeepsTokens(options: seq<string>, stored: Option<string>)
    ensures |SkillsToSave(Blue, Loaded(Blue, options, stored))| == |Parse(stored)|
    ensures forall t :: t in SkillsToSave(Blue, Loaded(Blue, options, stored)) <==> t in Parse(stored)
    ensures multiset(SkillsToSave(Blue, Loaded(Blue, options, stored))) == multiset(Parse(stored))
  {
    BlueRoundTrip(options, stored);
    PartitionIsExact(Blue, options, Parse(stored));
    FilterPartitionMultiset(Parse(stored), KnownFn(Blue, options));
  }

  /** The white page: the round trip keeps every stored token except a literal "Other". */
  lemma WhiteRoundTripDropsOther(stored: Option<string>)
    ensures forall t :: t in SkillsToSave(White, Loaded(White, Options(White), stored)) <==>
      t in Parse(stored) && t != OtherOption
  {
    var raw := Parse(stored);
    var known := KnownOf(White, Options(White), raw);
    LoadSaveRoundTrip(White, Options(White), stored);
    FilterMembers(known, Without(OtherOption));
    PartitionIsExact(White, Options(White), raw);
    assert WhiteOptions[24] == OtherOption;
  }
}
