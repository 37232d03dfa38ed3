/**
 * The add-recipe form: the clean-up of the ingredient text a photo scan
 * returns, the ingredient list read from the text box, the submit checks, the
 * multipart body of the create request and the folder choices.
 */
module AddRecipe {
  import opened Wrappers
  import opened Text
  import opened Domain
  import opened Lists
  import opened PanelOrder
  import opened ImageUpload

  /** The characters of `/[\n\r]+/`. */
  predicate IsLineBreak(c: char)
  {
    c == '\n' || c == '\r'
  }

  /**
   * `(response?.data?.ingredients || '').replaceAll(/[\n\r]+/g, '\n').trim()`:
   * the scanned text with every run of line breaks made one `\n`, then trimmed.
   */
  function CleanScan(raw: Option<string>): (r: string)
    ensures '\r' !in r
    ensures |r| > 0 ==> !IsSpace(r[0]) && !IsSpace(r[|r| - 1])
    ensures forall c :: c in r ==> c == '\n' || c in raw.GetOr("")
  {
    var c := CollapseRuns(raw.GetOr(""), IsLineBreak, '\n');
    CollapseRunsChars(raw.GetOr(""), IsLineBreak, '\n');
    TrimKeepsChars(c);
    Trim(c)
  }

  /**
   * The cleaned text has no carriage return and no two line breaks in a row,
   * neither starts nor ends with whitespace, and holds nothing but `\n` and
   * characters of the scan.
   */
  lemma CleanScanShape(raw: Option<string>)
    ensures var r := CleanScan(raw);
      && '\r' !in r
      && NoAdjacent(r, IsLineBreak)
      && (|r| > 0 ==> !IsSpace(r[0]) && !IsSpace(r[|r| - 1]))
      && forall c :: c in r ==> c == '\n' || c in raw.GetOr("")
  {
    var s := raw.GetOr("");
    var c := CollapseRuns(s, IsLineBreak, '\n');
    CollapseRunsNoAdjacent(s, IsLineBreak, '\n');
    CollapseRunsChars(s, IsLineBreak, '\n');
    TrimKeepsNoAdjacent(c, IsLineBreak);
    TrimKeepsChars(c);
    assert '\r' !in c;
  }

  /** Trimming keeps a string's characters and drops none of its structure inside. */
  lemma TrimKeepsChars(s: string)
    ensures forall x :: x in Trim(s) ==> x in s
  {
    TrimIsInfix(s);
    var k := |s| - |TrimStart(s)|;
    forall x | x in Trim(s)
      ensures x in s
    {
      var i :| 0 <= i < |Trim(s)| && Trim(s)[i] == x;
      assert s[k + i] == x;
    }
  }

  lemma TrimKeepsNoAdjacent(s: string, p: char -> bool)
    requires NoAdjacent(s, p)
    ensures NoAdjacent(Trim(s), p)
  {
    TrimIsInfix(s);
    var k := |s| - |TrimStart(s)|;
    var r := Trim(s);
    assert forall i :: 0 <= i < |r| ==> r[i] == s[k + i];
  }

  /** Cleaning a cleaned text changes nothing. */
  lemma CleanScanIdempotent(raw: Option<string>)
    ensures CleanScan(Some(CleanScan(raw))) == CleanScan(raw)
  {
    var r := CleanScan(raw);
    CleanScanShape(raw);
    CollapseRunsFixed(r, IsLineBreak, '\n');
    TrimIdempotent(CollapseRuns(raw.GetOr(""), IsLineBreak, '\n'));
  }

  /** What the scan request came back with. */
  datatype ScanOutcome =
    | Scanned(ingredients: Option<string>)
    | ScanFailed(message: Option<string>)

  /** `lines.map(l => l.trim())`. */
  function TrimAll(lines: seq<string>): (r: seq<string>)
    ensures |r| == |lines|
    ensures forall i :: 0 <= i < |r| ==> r[i] == Trim(lines[i])
  {
    seq(|lines|, i requires 0 <= i < |lines| => Trim(lines[i]))
  }

  predicate NonEmpty(s: string)
  {
    s != ""
  }

  /**
   * `ingredientsText.split('\n').map(l => l.trim()).filter(Boolean)`: the
   * ingredient names, one per non-blank line, each trimmed.
   */
  function IngredientNames(text: string): (names: seq<string>)
    ensures |names| <= |Split(text, '\n')|
  {
    Filter(TrimAll(Split(text, '\n')), NonEmpty)
  }

  /** A name as the list holds it: not empty, already trimmed, on one line. */
  predicate IsName(n: string)
  {
    n != "" && Trim(n) == n && '\n' !in n
  }

  /** Every ingredient name is non-empty, trimmed and free of line breaks. */
  lemma IngredientNamesShape(text: string)
    ensures forall i :: 0 <= i < |IngredientNames(text)| ==> IsName(IngredientNames(text)[i])
  {
    var lines := Split(text, '\n');
    var names := IngredientNames(text);
    SplitPartsAvoidSeparator(text, '\n');
    forall i | 0 <= i < |names|
      ensures IsName(names[i])
    {
      assert names[i] in TrimAll(lines);
      TrimmedLine(lines, names[i], '\n');
    }
  }

  /** An element of the trimmed lines is its own trim and avoids what every line avoids. */
  lemma TrimmedLine(lines: seq<string>, n: string, c: char)
    requires n in TrimAll(lines)
    requires forall k :: 0 <= k < |lines| ==> c !in lines[k]
    ensures Trim(n) == n && c !in n
  {
    var j :| 0 <= j < |lines| && n == Trim(lines[j]);
    TrimIdempotent(lines[j]);
    TrimInfixAvoids(lines[j], c);
  }

  /** A character missing from a string is missing from its trimmed form. */
  lemma TrimInfixAvoids(s: string, c: char)
    requires c !in s
    ensures c !in Trim(s)
  {
    TrimKeepsChars(s);
  }

  /** A non-blank text box yields at least one ingredient. */
  lemma NonBlankHasIngredient(text: string)
    requires !IsBlank(text)
    ensures |IngredientNames(text)| > 0
  {
    var lines := Split(text, '\n');
    var line := NonBlankLine(text);
    var j :| 0 <= j < |lines| && lines[j] == line;
    assert Trim(line) in TrimAll(lines);
    assert Trim(line) in IngredientNames(text);
  }

  /** A text with a non-whitespace character has a line with one. */
  lemma {:induction false} NonBlankLine(text: string) returns (line: string)
    requires !IsBlank(text)
    ensures line in Split(text, '\n') && !IsBlank(line)
    decreases |text|
  {
    var rest := Split(text[1..], '\n');
    if !IsSpace(text[0]) {
      line := [text[0]] + rest[0];
      assert line[0] == text[0];
    } else {
      assert !IsBlank(text[1..]) by {
        var i :| 0 <= i < |text| && !IsSpace(text[i]);
        assert text[1..][i - 1] == text[i];
      }
      line := NonBlankLine(text[1..]);
      var k :| 0 <= k < |rest| && rest[k] == line;
      if k == 0 && text[0] != '\n' {
        var i :| 0 <= i < |line| && !IsSpace(line[i]);
        line := [text[0]] + rest[0];
        assert line[i + 1] == rest[0][i];
      } else if k > 0 && text[0] != '\n' {
        assert line == Split(text, '\n')[k];
      } else {
        assert line == Split(text, '\n')[k + 1];
      }
    }
  }

  /** Ingredient names written one per line are read back exactly. */
  lemma IngredientNamesOfLines(names: seq<string>)
    requires forall i :: 0 <= i < |names| ==> IsName(names[i])
    ensures IngredientNames(Join(names, '\n')) == names
  {
    if |names| == 0 {
      NoLinesNoNames(names);
    } else {
      LinesReadBack(names);
    }
  }

  /** An empty list of names is written as the empty text, which holds no names. */
  lemma NoLinesNoNames(names: seq<string>)
    requires |names| == 0
    ensures IngredientNames(Join(names, '\n')) == names
  {
    assert Join(names, '\n') == "";
    assert Split("", '\n') == [""];
    assert TrimAll([""]) == [""];
  }

  /** Non-empty names, split back at the line breaks and trimmed, are all kept. */
  lemma LinesReadBack(names: seq<string>)
    requires |names| > 0
    requires forall i :: 0 <= i < |names| ==> IsName(names[i])
    ensures IngredientNames(Join(names, '\n')) == names
  {
    SplitJoin(names, '\n');
    NamesTrimmed(names);
  }

  /** Lines that are names already are kept as they are. */
  lemma NamesTrimmed(names: seq<string>)
    requires forall i :: 0 <= i < |names| ==> IsName(names[i])
    ensures Filter(TrimAll(names), NonEmpty) == names
  {
    assert TrimAll(names) == names;
    FilterAll(names, NonEmpty);
  }

  /** The text given by a scan is read as its non-blank lines, trimmed: none holds a carriage return. */
  lemma ScanLinesAreIngredients(raw: Option<string>)
    ensures forall n :: n in IngredientNames(CleanScan(raw)) ==> n != "" && '\r' !in n
  {
    CleanScanShape(raw);
    var text := CleanScan(raw);
    var lines := Split(text, '\n');
    PartsAvoid(text, '\n', '\r');
    forall n | n in IngredientNames(text)
      ensures n != "" && '\r' !in n
    {
      TrimmedLine(lines, n, '\r');
    }
  }

  /** A character missing from a text is missing from every part of its split. */
  lemma {:induction false} PartsAvoid(s: string, sep: char, c: char)
    requires c !in s
    ensures forall k :: 0 <= k < |Split(s, sep)| ==> c !in Split(s, sep)[k]
    decreases |s|
  {
    if s != [] {
      assert c !in s[1..] by {
        assert forall i :: 0 <= i < |s| - 1 ==> s[1..][i] == s[i + 1];
      }
      PartsAvoid(s[1..], sep, c);
    }
  }

  const NoPermission := "You do not have permission to create recipes. Please contact your head chef."
  const NameRequired := "Recipe name is required"
  const FolderRequired := "Please select a folder"
  const IngredientsRequired := "Ingredients are required"
  const MethodRequired := "Method is required"

  /**
   * The checks of `handleSubmit`, in order: the create-recipe permission, then a
   * name, a folder, ingredients and a method.
   */
  function SubmitError(user: Option<User>, title: string, panelId: string, ingredientsText: string, steps: string): (e: Option<string>)
    ensures e.None? <==>
      && Can(user, CanEditRecipes)
      && !IsBlank(title) && panelId != "" && !IsBlank(ingredientsText) && !IsBlank(steps)
    ensures e.Some? ==> e.value in {NoPermission, NameRequired, FolderRequired, IngredientsRequired, MethodRequired}
  {
    if !Can(user, CanEditRecipes) then Some(NoPermission)
    else if IsBlank(title) then Some(NameRequired)
    else if panelId == "" then Some(FolderRequired)
    else if IsBlank(ingredientsText) then Some(IngredientsRequired)
    else if IsBlank(steps) then Some(MethodRequired)
    else None
  }

  /** The permission is checked before any field, and each field before the next. */
  lemma SubmitErrorOrder(user: Option<User>, title: string, panelId: string, ingredientsText: string, steps: string)
    ensures !Can(user, CanEditRecipes) ==> SubmitError(user, title, panelId, ingredientsText, steps) == Some(NoPermission)
    ensures Can(user, CanEditRecipes) && IsBlank(title) ==>
      SubmitError(user, title, panelId, ingredientsText, steps) == Some(NameRequired)
    ensures Can(user, CanEditRecipes) && !IsBlank(title) && panelId == "" ==>
      SubmitError(user, title, panelId, ingredientsText, steps) == Some(FolderRequired)
    ensures Can(user, CanEditRecipes) && !IsBlank(title) && panelId != "" && IsBlank(ingredientsText) ==>
      SubmitError(user, title, panelId, ingredientsText, steps) == Some(IngredientsRequired)
  {
  }

  /** A recipe that passes the checks carries at least one ingredient. */
  lemma SubmittedRecipeHasIngredient(user: Option<User>, title: string, panelId: string, ingredientsText: string, steps: string)
    requires SubmitError(user, title, panelId, ingredientsText, steps).None?
    ensures |IngredientNames(ingredientsText)| > 0
  {
    NonBlankHasIngredient(ingredientsText);
  }

  /** A value of the multipart body. */
  datatype FormValue = TextValue(text: string) | FileValue(file: File)

  /** One `data.append(key, value)`. */
  datatype Entry = Entry(key: string, value: FormValue)

  /** `` `ingredients[${idx}][name]` ``. */
  function IngredientKey(i: nat): string
  {
    "ingredients[" + NatToString(i) + "][name]"
  }

  /** Different positions get different keys, so the server reads each ingredient back at its place. */
  lemma IngredientKeyInjective(i: nat, j: nat)
    ensures IngredientKey(i) == IngredientKey(j) ==> i == j
  {
    if IngredientKey(i) == IngredientKey(j) {
      var a, b := NatToString(i), NatToString(j);
      assert |a| == |b|;
      assert IngredientKey(i)[12..12 + |a|] == a;
      assert IngredientKey(j)[12..12 + |b|] == b;
      DigitsValueOfNatToString(i);
      DigitsValueOfNatToString(j);
    }
  }

  /** The ingredient entries, one per name, keyed by position. */
  function IngredientEntries(names: seq<string>): seq<Entry>
  {
    seq(|names|, i requires 0 <= i < |names| => Entry(IngredientKey(i), TextValue(names[i])))
  }

  /** The body `handleSubmit` builds, entry by entry. */
  function RecipeForm(title: string, panelId: string, steps: string, chefNotes: string,
                      names: seq<string>, file: Option<File>): (form: seq<Entry>)
    ensures |form| == HeadSize(chefNotes) + |names| + (if file.Some? then 1 else 0)
    ensures forall i :: 0 <= i < |names| ==>
      form[HeadSize(chefNotes) + i] == Entry(IngredientKey(i), TextValue(names[i]))
  {
    [Entry("title", TextValue(Trim(title))), Entry("panel", TextValue(panelId)), Entry("method", TextValue(Trim(steps)))]
    + (if Trim(chefNotes) != "" then [Entry("chefNotes", TextValue(Trim(chefNotes)))] else [])
    + IngredientEntries(names)
    + (if file.Some? then [Entry("image", FileValue(file.value))] else [])
  }

  /**
   * The body of the create request: the trimmed name, the folder, the trimmed
   * method, the trimmed notes when not blank, one entry per ingredient and the
   * photo when one is chosen; the `forEach` over the ingredients is the loop.
   */
  method BuildRecipeForm(title: string, panelId: string, steps: string, chefNotes: string,
                         names: seq<string>, file: Option<File>) returns (data: seq<Entry>)
    ensures data == RecipeForm(title, panelId, steps, chefNotes, names, file)
  {
    data := [Entry("title", TextValue(Trim(title))), Entry("panel", TextValue(panelId)), Entry("method", TextValue(Trim(steps)))];
    var notes := Trim(chefNotes);
    if notes != "" {
      data := data + [Entry("chefNotes", TextValue(notes))];
    }
    var head := data;
    ghost var entries := IngredientEntries(names);
    var idx := 0;
    while idx < |names|
      invariant 0 <= idx <= |names|
      invariant data == head + entries[..idx]
    {
      assert entries[idx] == Entry(IngredientKey(idx), TextValue(names[idx]));
      assert entries[..idx + 1] == entries[..idx] + [entries[idx]];
      data := data + [Entry(IngredientKey(idx), TextValue(names[idx]))];
      idx := idx + 1;
    }
    assert entries[..|names|] == entries;
    var tail: seq<Entry> := if file.Some? then [Entry("image", FileValue(file.value))] else [];
    data := data + tail;
  }

  /** The number of entries of the head of the body: three, and one more for notes. */
  function HeadSize(chefNotes: string): nat
  {
    if IsBlank(chefNotes) then 3 else 4
  }

  /**
   * Ingredient `i` sits at its own place in the body under its key, the notes
   * entry is there exactly when the notes are not blank, and the photo entry
   * exactly when a photo is chosen.
   */
  lemma RecipeFormLayout(title: string, panelId: string, steps: string, chefNotes: string,
                         names: seq<string>, file: Option<File>)
    ensures var form := RecipeForm(title, panelId, steps, chefNotes, names, file);
      && |form| == HeadSize(chefNotes) + |names| + (if file.Some? then 1 else 0)
      && form[0] == Entry("title", TextValue(Trim(title)))
      && form[1] == Entry("panel", TextValue(panelId))
      && form[2] == Entry("method", TextValue(Trim(steps)))
      && (!IsBlank(chefNotes) ==> form[3] == Entry("chefNotes", TextValue(Trim(chefNotes))))
      && (forall i :: 0 <= i < |names| ==>
            form[HeadSize(chefNotes) + i] == Entry(IngredientKey(i), TextValue(names[i])))
      && (file.Some? ==> form[|form| - 1] == Entry("image", FileValue(file.value)))
  {
  }

  /** The folder choices of the select: a panel's id and name. */
  datatype FolderOption = FolderOption(value: string, text: string)

  /** `panels.slice().sort((a, b) => a.order - b.order).map(p => <option …>)`, none without panels. */
  function FolderOptions(panels: Option<seq<Panel>>): (options: seq<FolderOption>)
    ensures |options| == if panels.None? then 0 else |panels.value|
    ensures forall o :: o in options ==> exists p :: p in panels.value && o == FolderOption(p.id, p.name)
  {
    if panels.None? || |panels.value| == 0 then []
    else
      var sorted := SortPanels(panels.value);
      assert forall i :: 0 <= i < |sorted| ==> sorted[i] in multiset(panels.value);
      seq(|sorted|, i requires 0 <= i < |sorted| => FolderOption(sorted[i].id, sorted[i].name))
  }

  /**
   * There is one choice per panel and every panel has its choice, in the
   * panels' ascending order.
   */
  lemma FolderOptionsCoverPanels(panels: seq<Panel>)
    ensures var r := FolderOptions(Some(panels));
      && |r| == |panels|
      && (forall p :: p in panels ==> FolderOption(p.id, p.name) in r)
      && (forall o :: o in r ==> exists p :: p in panels && o == FolderOption(p.id, p.name))
      && (forall i, j :: 0 <= i < j < |r| ==>
            r[i] == FolderOption(SortPanels(panels)[i].id, SortPanels(panels)[i].name)
            && OrderKey(SortPanels(panels)[i]) <= OrderKey(SortPanels(panels)[j]))
  {
    SortPanelsAscending(panels);
    var sorted := SortPanels(panels);
    var r := FolderOptions(Some(panels));
    assert |sorted| == |panels| by {
      assert |multiset(sorted)| == |multiset(panels)|;
    }
    forall p | p in panels
      ensures FolderOption(p.id, p.name) in r
    {
      assert p in multiset(sorted);
      var i :| 0 <= i < |sorted| && sorted[i] == p;
      assert r[i] == FolderOption(p.id, p.name);
    }
    forall o | o in r
      ensures exists p :: p in panels && o == FolderOption(p.id, p.name)
    {
      var i :| 0 <= i < |r| && r[i] == o;
      assert sorted[i] in multiset(panels);
    }
  }

  /** The form's state; `fileInput` is the recipe photo's input. */
  class AddRecipeForm {
    var title: string
    var panelId: string
    var ingredientsText: string
    var steps: string
    var chefNotes: string
    var fileInput: Option<File>

    constructor ()
      ensures title == "" && panelId == "" && ingredientsText == "" && steps == "" && chefNotes == ""
      ensures fileInput == None
    {
      title := "";
      panelId := "";
      ingredientsText := "";
      steps := "";
      chefNotes := "";
      fileInput := None;
    }

    /** Every field back to empty, as after a successful create. */
    method Clear()
      modifies this
      ensures title == "" && panelId == "" && ingredientsText == "" && steps == "" && chefNotes == ""
      ensures fileInput == None
    {
      title, panelId, ingredientsText, steps, chefNotes, fileInput := "", "", "", "", "", None;
    }

    /** `handleFileChange` once the scan has answered: the cleaned text replaces the ingredients. */
    method ApplyScan(outcome: ScanOutcome) returns (toast: string)
      modifies this
      ensures outcome.Scanned? ==>
        ingredientsText == CleanScan(outcome.ingredients) && toast == "Ingredients extracted!"
      ensures outcome.ScanFailed? ==>
        ingredientsText == old(ingredientsText) && toast == outcome.message.GetOr("Failed to scan image")
      ensures title == old(title) && panelId == old(panelId) && steps == old(steps)
      ensures chefNotes == old(chefNotes) && fileInput == old(fileInput)
    {
      match outcome
      case Scanned(raw) =>
        ingredientsText := CleanScan(raw);
        toast := "Ingredients extracted!";
      case ScanFailed(message) =>
        toast := message.GetOr("Failed to scan image");
    }

    /**
     * `handleSubmit`: a failing check shows its message and sends nothing;
     * otherwise the body goes out, and success empties the fields and the photo
     * input while failure keeps them.
     */
    method Submit(user: Option<User>, ok: bool) returns (sent: Option<seq<Entry>>, toast: string)
      modifies this
      ensures SubmitError(user, old(title), old(panelId), old(ingredientsText), old(steps)).Some? ==>
        && sent == None
        && toast == SubmitError(user, old(title), old(panelId), old(ingredientsText), old(steps)).value
      ensures SubmitError(user, old(title), old(panelId), old(ingredientsText), old(steps)).None? ==>
        && sent == Some(RecipeForm(old(title), old(panelId), old(steps), old(chefNotes),
                                   IngredientNames(old(ingredientsText)), old(fileInput)))
        && toast == (if ok then "Recipe created" else "Create recipe failed")
      ensures SubmitError(user, old(title), old(panelId), old(ingredientsText), old(steps)).None? && ok ==>
        && title == "" && panelId == "" && ingredientsText == "" && steps == "" && chefNotes == ""
        && fileInput == None
      ensures SubmitError(user, old(title), old(panelId), old(ingredientsText), old(steps)).Some? || !ok ==>
        && title == old(title) && panelId == old(panelId) && ingredientsText == old(ingredientsText)
        && steps == old(steps) && chefNotes == old(chefNotes) && fileInput == old(fileInput)
    {
      var e := SubmitError(user, title, panelId, ingredientsText, steps);
      if e.Some? {
        sent, toast := None, e.value;
      } else {
        var names := IngredientNames(ingredientsText);
        var data := BuildRecipeForm(title, panelId, steps, chefNotes, names, fileInput);
        sent := Some(data);
        if ok {
          toast := "Recipe created";
          Clear();
        } else {
          toast := "Create recipe failed";
        }
      }
    }
  }
}
