/** Runs of the import wizard, from the closed wizard and with a small library, that end with stale
    duplicates or a wrong file name. */
module WizardWitnesses {
  import opened Collections
  import opened Strings
  import opened WizardProtocol
  import opened WizardSafety
  import opened WizardDuplicates
  import opened WizardFileNames

  const SHEET := Table(["Contact"], [["x"]], 1, [], [])

  const MAPPED_NAME: Mapping := map["Contact" := "name"]

  const MAPPED_EMAIL: Mapping := map["Contact" := "email"]

  /** One row, which becomes another contact under another mapping. */
  function RowsUnder(mapping: Mapping): seq<CheckedRow> {
    [CheckedRow(2, if mapping == MAPPED_EMAIL then "by email" else "by name", Valid)]
  }

  function SampleLibrary(): (lib: Library)
    ensures forall name :: lib.kindOf(name) == TextFile
    ensures forall text :: lib.parseText(text) == Some(SHEET)
    ensures forall headers :: lib.suggestMapping(headers) == MAPPED_NAME
    ensures forall mapping :: lib.mappingError(mapping) == None
    ensures forall headers, rows, mapping :: lib.validate(headers, rows, mapping) == RowsUnder(mapping)
  {
    Library((name: string) => TextFile, (text: string) => Some(SHEET), (text: string, sheet: Option<string>) => None,
            (headers: seq<string>) => MAPPED_NAME, (mapping: Mapping) => None,
            (headers: seq<string>, rows: seq<seq<string>>, mapping: Mapping) => RowsUnder(mapping))
  }

  lemma OneContact(mapping: Mapping)
    ensures Importable(RowsUnder(mapping)) == [if mapping == MAPPED_EMAIL then "by email" else "by name"]
  {
    var row := RowsUnder(mapping)[0];
    SelectStep([], row, IsImportable);
    assert [] + [row] == [row];
  }

  ghost predicate Reaches(es: seq<Event>, s: State) {
    After(SampleLibrary(), es) == s
  }

  lemma Then(es: seq<Event>, s: State, e: Event, t: State)
    requires Reaches(es, s) && Step(SampleLibrary(), s, e) == t
    ensures Reaches(es + [e], t)
  {
    assert (es + [e])[..|es|] == es;
  }

  // ----- from the closed wizard to the mapping -----

  const OPENED := INITIAL.(isOpen := true)

  const PASTING := OPENED.(step := Input)

  const PREVIEWED := PASTING.(step := Preview, parsed := Some(SHEET), mapping := MAPPED_NAME, listName := "List")

  const MAPPING := PREVIEWED.(step := Map)

  const TO_MAPPING: seq<Event> := [OpenWizard] + [ChooseMode(Paste)] + [PreviewPaste("List")] + [GoTo(Map)]

  lemma Opens()
    ensures Step(SampleLibrary(), INITIAL, OpenWizard) == OPENED
    ensures Step(SampleLibrary(), OPENED, ChooseMode(Paste)) == PASTING
  {}

  lemma Previews()
    ensures Step(SampleLibrary(), PASTING, PreviewPaste("List")) == PREVIEWED
    ensures Step(SampleLibrary(), PREVIEWED, GoTo(Map)) == MAPPING
  {}

  lemma ReachesMapping()
    ensures Reaches(TO_MAPPING, MAPPING)
  {
    Opens();
    Previews();
    assert [] + [OpenWizard] == [OpenWizard];
    Then([], INITIAL, OpenWizard, OPENED);
    Then([OpenWizard], OPENED, ChooseMode(Paste), PASTING);
    Then([OpenWizard] + [ChooseMode(Paste)], PASTING, PreviewPaste("List"), PREVIEWED);
    Then([OpenWizard] + [ChooseMode(Paste)] + [PreviewPaste("List")], PREVIEWED, GoTo(Map), MAPPING);
  }

  function Checking(checks: multiset<seq<string>>): Calls {
    Calls(multiset{}, checks, multiset{})
  }

  function Reading(files: multiset<string>): Calls {
    Calls(files, multiset{}, multiset{})
  }

  const VALIDATED := MAPPING.(step := Validate, validated := RowsUnder(MAPPED_NAME), calls := Checking(multiset{["by name"]}))

  lemma Validates()
    ensures Step(SampleLibrary(), MAPPING, ContinueFromMap) == VALIDATED
  {
    OneContact(MAPPED_NAME);
    assert MAPPED_NAME["Contact"] != MAPPED_EMAIL["Contact"];
    assert MAPPING.calls.checks + multiset{["by name"]} == multiset{["by name"]};
  }

  const TO_VALIDATED: seq<Event> := TO_MAPPING + [ContinueFromMap]

  lemma ReachesValidated()
    ensures Reaches(TO_VALIDATED, VALIDATED)
  {
    ReachesMapping();
    Validates();
    Then(TO_MAPPING, MAPPING, ContinueFromMap, VALIDATED);
  }

  /** The wizard asks to import rows whose duplicates are not the ones it shows. */
  ghost predicate AsksWithStaleDuplicates(es: seq<Event>) {
    var s := After(SampleLibrary(), es);
    s.step == Name && !Pending(s) && Importable(s.validated) != [] && !FoundForRows(s)
  }

  // ----- a check fails -----

  const UNCHECKED := VALIDATED.(calls := Checking(multiset{}), error := Some("down"))

  lemma CheckFails()
    ensures Step(SampleLibrary(), VALIDATED, CheckSettles(["by name"], CheckFailed("down"))) == UNCHECKED
  {
    assert VALIDATED.calls.checks - multiset{["by name"]} == multiset{};
  }

  lemma NamesUnchecked()
    ensures Step(SampleLibrary(), UNCHECKED, GoTo(Name)) == UNCHECKED.(step := Name)
  {
    OneContact(MAPPED_NAME);
  }

  /** The only check fails: the wizard goes on with the count of none. */
  lemma FailedCheckIsForgotten(es: seq<Event>)
    requires es == TO_VALIDATED + [CheckSettles(["by name"], CheckFailed("down"))] + [GoTo(Name)]
    ensures AsksWithStaleDuplicates(es) && After(SampleLibrary(), es).duplicates.count == 0
  {
    ReachesValidated();
    CheckFails();
    Then(TO_VALIDATED, VALIDATED, CheckSettles(["by name"], CheckFailed("down")), UNCHECKED);
    NamesUnchecked();
    Then(TO_VALIDATED + [CheckSettles(["by name"], CheckFailed("down"))], UNCHECKED, GoTo(Name), UNCHECKED.(step := Name));
    OneContact(MAPPED_NAME);
  }

  // ----- two checks overlap -----

  const REMAPPED := VALIDATED.(step := Map, mapping := MAPPED_EMAIL)

  const REVALIDATED := REMAPPED.(
    step := Validate, validated := RowsUnder(MAPPED_EMAIL), calls := Checking(multiset{["by name"], ["by email"]}))

  const NEWER_ANSWERED := REVALIDATED.(
    calls := Checking(multiset{["by name"]}), duplicates := Duplicates(0, [], Some(["by email"])))

  const OLDER_ANSWERED := NEWER_ANSWERED.(
    calls := Checking(multiset{}), duplicates := Duplicates(1, [0], Some(["by name"])))

  lemma Remaps()
    ensures Step(SampleLibrary(), VALIDATED, GoTo(Map)) == VALIDATED.(step := Map)
    ensures Step(SampleLibrary(), VALIDATED.(step := Map), MapColumn("Contact", "email")) == REMAPPED
  {
    assert MAPPED_NAME["Contact" := "email"] == MAPPED_EMAIL;
  }

  lemma Revalidates()
    ensures Step(SampleLibrary(), REMAPPED, ContinueFromMap) == REVALIDATED
  {
    OneContact(MAPPED_EMAIL);
    assert multiset{["by name"]} + multiset{["by email"]} == multiset{["by name"], ["by email"]};
  }

  lemma NewerAnswers()
    ensures Step(SampleLibrary(), REVALIDATED, CheckSettles(["by email"], Checked(0, []))) == NEWER_ANSWERED
  {
    assert multiset{["by name"], ["by email"]} - multiset{["by email"]} == multiset{["by name"]};
  }

  lemma OlderAnswers()
    ensures Step(SampleLibrary(), NEWER_ANSWERED, CheckSettles(["by name"], Checked(1, [0]))) == OLDER_ANSWERED
  {
    assert multiset{["by name"]} - multiset{["by name"]} == multiset{};
  }

  lemma NamesOlder()
    ensures Step(SampleLibrary(), OLDER_ANSWERED, GoTo(Name)) == OLDER_ANSWERED.(step := Name)
  {
    OneContact(MAPPED_EMAIL);
  }

  const TO_REVALIDATED: seq<Event> := TO_VALIDATED + [GoTo(Map)] + [MapColumn("Contact", "email")] + [ContinueFromMap]

  lemma ReachesRevalidated()
    ensures Reaches(TO_REVALIDATED, REVALIDATED)
  {
    ReachesValidated();
    Remaps();
    Then(TO_VALIDATED, VALIDATED, GoTo(Map), VALIDATED.(step := Map));
    Then(TO_VALIDATED + [GoTo(Map)], VALIDATED.(step := Map), MapColumn("Contact", "email"), REMAPPED);
    Revalidates();
    Then(TO_VALIDATED + [GoTo(Map)] + [MapColumn("Contact", "email")], REMAPPED, ContinueFromMap, REVALIDATED);
  }

  const BOTH_ANSWERS: seq<Event> :=
    TO_REVALIDATED + [CheckSettles(["by email"], Checked(0, []))] + [CheckSettles(["by name"], Checked(1, [0]))]

  /** Two checks of different rows overlap, and the older is answered last: its duplicates are shown for the
      newer rows. */
  lemma OlderCheckOverwrites(es: seq<Event>)
    requires es == BOTH_ANSWERS + [GoTo(Name)]
    ensures AsksWithStaleDuplicates(es) && After(SampleLibrary(), es).duplicates.count == 1
    ensures Importable(After(SampleLibrary(), es).validated) == ["by email"]
  {
    ReachesRevalidated();
    NewerAnswers();
    Then(TO_REVALIDATED, REVALIDATED, CheckSettles(["by email"], Checked(0, [])), NEWER_ANSWERED);
    OlderAnswers();
    Then(TO_REVALIDATED + [CheckSettles(["by email"], Checked(0, []))], NEWER_ANSWERED,
         CheckSettles(["by name"], Checked(1, [0])), OLDER_ANSWERED);
    NamesOlder();
    Then(BOTH_ANSWERS, OLDER_ANSWERED, GoTo(Name), OLDER_ANSWERED.(step := Name));
    OneContact(MAPPED_EMAIL);
  }

  // ----- an older file lands last -----

  const UPLOADING := OPENED.(mode := Upload, step := Input)

  const PICKED_ONE := UPLOADING.(fileName := Some("a.csv"), calls := Reading(multiset{"a.csv"}))

  const PICKED_TWO := UPLOADING.(fileName := Some("b.csv"), calls := Reading(multiset{"a.csv", "b.csv"}))

  const READ_FIRST := PICKED_TWO.(
    calls := Reading(multiset{"b.csv"}), step := Preview, parsed := Some(SHEET), mapping := MAPPED_NAME, listName := "a")

  lemma PicksOne()
    ensures Step(SampleLibrary(), OPENED, ChooseMode(Upload)) == UPLOADING
    ensures Step(SampleLibrary(), UPLOADING, PickFile("a.csv")) == PICKED_ONE
  {
    assert UPLOADING.calls.fileReads + multiset{"a.csv"} == multiset{"a.csv"};
  }

  lemma PicksTwo()
    ensures Step(SampleLibrary(), PICKED_ONE, PickFile("b.csv")) == PICKED_TWO
  {
    assert multiset{"a.csv"} + multiset{"b.csv"} == multiset{"a.csv", "b.csv"};
  }

  lemma ReadsFirst()
    ensures Step(SampleLibrary(), PICKED_TWO, ReadSettles("a.csv", Some(""), "a")) == READ_FIRST
  {
    assert multiset{"a.csv", "b.csv"} - multiset{"a.csv"} == multiset{"b.csv"};
  }

  const PICKING: seq<Event> := [OpenWizard] + [ChooseMode(Upload)] + [PickFile("a.csv")] + [PickFile("b.csv")]

  lemma ReachesPickedTwo()
    ensures Reaches(PICKING, PICKED_TWO)
  {
    Opens();
    PicksOne();
    PicksTwo();
    assert [] + [OpenWizard] == [OpenWizard];
    Then([], INITIAL, OpenWizard, OPENED);
    Then([OpenWizard], OPENED, ChooseMode(Upload), UPLOADING);
    Then([OpenWizard] + [ChooseMode(Upload)], UPLOADING, PickFile("a.csv"), PICKED_ONE);
    Then([OpenWizard] + [ChooseMode(Upload)] + [PickFile("a.csv")], PICKED_ONE, PickFile("b.csv"), PICKED_TWO);
  }

  /** Two files are picked and the older one is read first: its table is previewed, and would be imported,
      under the name of the other. */
  lemma OlderFileUnderNewerName(es: seq<Event>)
    requires es == PICKING + [ReadSettles("a.csv", Some(""), "a")]
    ensures
      var s := After(SampleLibrary(), es);
      && s.step == Preview && RequestOf(s).fileName == Some("b.csv")
      && OriginsAfter(SampleLibrary(), es).table == Some("a.csv")
  {
    ReachesPickedTwo();
    ReadsFirst();
    Then(PICKING, PICKED_TWO, ReadSettles("a.csv", Some(""), "a"), READ_FIRST);
    assert es[..|es| - 1] == PICKING;
  }
}
