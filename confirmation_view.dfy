/** The confirmation screen: the initial ingredient list, the text form of
    the ingredient list and of the nutrition table with the parsers that
    read an edited text back, and the guard in front of the analysis
    request. */
module ConfirmationView {
  import opened Wrappers
  import opened JsText
  import opened JsObject
  import AnalysisRoutes

  /** `{ ingredient, percent }`; a `null` percent is `None`. */
  datatype Item = Item(ingredient: string, percent: Option<string>)

  /** The fields of the `data` prop the screen reads. */
  datatype ScanData = ScanData(
    scannedIngredientsList: Option<seq<Item>>,
    ingredientsList: Option<seq<string>>,
    scannedNutritionTable: Option<seq<Entry<string>>>)

  // ---------------------------------------------------------------------
  // The initial state

  /** Plain names as items without a percentage. */
  function Unlabelled(names: seq<string>): (r: seq<Item>)
    ensures |r| == |names|
    ensures forall k :: 0 <= k < |names| ==> r[k] == Item(names[k], None)
  {
    seq(|names|, k requires 0 <= k < |names| => Item(names[k], None))
  }

  /** `initialList`: the scanned list when there is one, else the plain
      `ingredients_list` without percentages, else nothing. */
  function InitialList(data: ScanData): (r: seq<Item>)
    ensures data.scannedIngredientsList.Some? ==> r == data.scannedIngredientsList.value
    ensures data.scannedIngredientsList.None? ==>
              |r| == |data.ingredientsList.GetOr([])| &&
              forall k :: 0 <= k < |r| ==> r[k] == Item(data.ingredientsList.value[k], None)
  {
    match data.scannedIngredientsList
    case Some(items) => items
    case None =>
      match data.ingredientsList
      case Some(names) => Unlabelled(names)
      case None => []
  }

  /** `initialNutritionTable`. */
  function InitialNutritionTable(data: ScanData): seq<Entry<string>> {
    data.scannedNutritionTable.GetOr([])
  }

  // ---------------------------------------------------------------------
  // The ingredient list as text

  /** How one item is shown: `ingredient (percent)` when the percent is a
      non-empty string, the bare ingredient otherwise. */
  function ItemText(item: Item): string {
    if item.percent.Some? && item.percent.value != "" then item.ingredient + " (" + item.percent.value + ")"
    else item.ingredient
  }

  function ItemTexts(items: seq<Item>): (r: seq<string>)
    ensures |r| == |items|
    ensures forall k :: 0 <= k < |items| ==> r[k] == ItemText(items[k])
  {
    seq(|items|, k requires 0 <= k < |items| => ItemText(items[k]))
  }

  /** `editedText`: the items shown, joined by `", "`. When no item's text
      holds a comma, splitting at commas gives the texts back, each after
      the first with the blank of the separator in front. */
  function EditedText(items: seq<Item>): (text: string)
    ensures items == [] ==> text == ""
    ensures items != [] && (forall k :: 0 <= k < |items| ==> Free(ItemText(items[k]), ',')) ==>
              Split(text, ',') == [ItemText(items[0])] + Padded(ItemTexts(items)[1..])
  {
    EditedTextSplits(items);
    Join(ItemTexts(items), ", ")
  }

  /** Splitting the joined texts of comma-free items at `,` gives the first
      text and then each later one behind its blank. */
  lemma EditedTextSplits(items: seq<Item>)
    ensures items != [] && (forall k :: 0 <= k < |items| ==> Free(ItemText(items[k]), ',')) ==>
              Split(Join(ItemTexts(items), ", "), ',') == [ItemText(items[0])] + Padded(ItemTexts(items)[1..])
  {
    var texts := ItemTexts(items);
    if texts != [] && forall k :: 0 <= k < |texts| ==> Free(texts[k], ',') {
      SplitCommaSpace(texts);
    }
  }

  /** After the lazy first group of `/^(.*?)\s*\(([^)]+)\)$/` stops at `k`,
      the rest of the pattern matches: optional whitespace, `(`, a
      non-empty run without `)`, and a `)` that ends the text. */
  predicate GroupAt(t: string, k: nat)
    requires k <= |t|
  {
    var j := SkipSpace(t, k);
    j + 2 < |t| && t[j] == '(' && t[|t| - 1] == ')' && Free(t[j + 1..|t| - 1], ')')
  }

  /** No line terminator, which `.` does not match, in `t[from..to]`. */
  predicate SingleLine(t: string, from: nat, to: nat)
    requires from <= to <= |t|
  {
    forall i :: from <= i < to ==> !IsLineTerminator(t[i])
  }

  /** The lazy `(.*?)`: the first stopping point at or after `from` that is
      reached without crossing a line terminator and at which the rest of
      the pattern matches. */
  function LazyStop(t: string, from: nat): (r: Option<nat>)
    requires from <= |t|
    ensures r.Some? ==> from <= r.value <= |t| && GroupAt(t, r.value) && SingleLine(t, from, r.value)
    ensures r.Some? ==> forall k :: from <= k < r.value ==> !GroupAt(t, k)
    ensures r.None? ==> forall k :: from <= k <= |t| && SingleLine(t, from, k) ==> !GroupAt(t, k)
    decreases |t| - from
  {
    if GroupAt(t, from) then Some(from)
    else if from < |t| && !IsLineTerminator(t[from]) then LazyStop(t, from + 1)
    else None
  }

  /** `trimmed.match(/^(.*?)\s*\(([^)]+)\)$/)`, as its two groups. */
  function MatchPercent(t: string): (r: Option<(string, string)>)
    ensures r.None? <==> forall k :: 0 <= k <= |t| && SingleLine(t, 0, k) ==> !GroupAt(t, k)
    ensures r.Some? ==> Free(r.value.1, ')') && r.value.1 != []
    ensures r.Some? ==> |r.value.0| <= |t| && r.value.0 == t[..|r.value.0|]
  {
    match LazyStop(t, 0)
    case None => None
    case Some(k) =>
      var j := SkipSpace(t, k);
      Some((t[..k], t[j + 1..|t| - 1]))
  }

  /** One comma-separated piece of the edited text, trimmed and split into
      an ingredient and a trailing parenthesised percentage. */
  function ParseItem(piece: string): (r: Item)
    ensures Free(piece, ',') ==> Free(r.ingredient, ',') && (r.percent.Some? ==> Free(r.percent.value, ','))
    ensures Trimmed(r.ingredient)
    ensures r.percent.Some? ==> Trimmed(r.percent.value) && Free(r.percent.value, ')')
  {
    var trimmed := Trim(piece);
    PieceParts(piece);
    match MatchPercent(trimmed)
    case Some((name, percent)) => Item(Trim(name), Some(Trim(percent)))
    case None => Item(trimmed, None)
  }

  /** The parts `ParseItem` takes from a piece: the trimmed percentage is
      free of `)`, and no part of a comma-free piece holds a comma. */
  lemma PieceParts(piece: string)
    ensures var m := MatchPercent(Trim(piece));
      m.Some? ==> Free(Trim(m.value.1), ')')
    ensures var m := MatchPercent(Trim(piece));
      Free(piece, ',') ==>
        Free(Trim(piece), ',') && (m.Some? ==> Free(Trim(m.value.0), ',') && Free(Trim(m.value.1), ','))
  {
    var trimmed := Trim(piece);
    match MatchPercent(trimmed)
    case Some((name, percent)) =>
      FreeTrim(percent, ')');
      if Free(piece, ',') {
        FreeTrim(piece, ',');
        FreeSlice(trimmed, ',', 0, |name|);
        FreeSlice(trimmed, ',', SkipSpace(trimmed, |name|) + 1, |trimmed| - 1);
        FreeTrim(name, ',');
        FreeTrim(percent, ',');
      }
    case None =>
      if Free(piece, ',') {
        FreeTrim(piece, ',');
      }
  }

  function ParseItems(pieces: seq<string>): (r: seq<Item>)
    ensures |r| == |pieces|
    ensures forall k :: 0 <= k < |pieces| ==> r[k] == ParseItem(pieces[k])
  {
    seq(|pieces|, k requires 0 <= k < |pieces| => ParseItem(pieces[k]))
  }

  /** `.filter(item => item.ingredient.length > 0)`. */
  function KeepNamed(items: seq<Item>): (r: seq<Item>)
    ensures forall k :: 0 <= k < |r| ==> r[k].ingredient != [] && r[k] in items
  {
    if items == [] then []
    else (if items[0].ingredient != [] then [items[0]] else []) + KeepNamed(items[1..])
  }

  /** What an item read back from text looks like: a non-empty, trimmed,
      comma-free ingredient, and a percentage, if any, that is trimmed and
      free of `,` and `)`. */
  predicate ParsedItem(item: Item) {
    && item.ingredient != [] && Trimmed(item.ingredient) && Free(item.ingredient, ',')
    && (item.percent.Some? ==> Trimmed(item.percent.value) && Free(item.percent.value, ',')
                               && Free(item.percent.value, ')'))
  }

  /** The ingredient textarea's change handler. */
  function ParseIngredients(text: string): (r: seq<Item>)
    ensures forall k :: 0 <= k < |r| ==> ParsedItem(r[k])
  {
    var pieces := Split(text, ',');
    SplitPiecesFree(text, ',');
    KeepNamed(ParseItems(pieces))
  }

  /** The text ends in a group the percentage pattern would split off. */
  predicate EndsInGroup(s: string) {
    exists j :: 0 <= j && j + 2 < |s| && s[j] == '(' && s[|s| - 1] == ')' && Free(s[j + 1..|s| - 1], ')')
  }

  /** Every `(` is closed later on. */
  predicate ParensClosed(s: string) {
    forall i :: 0 <= i < |s| && s[i] == '(' ==> exists m :: i < m < |s| && s[m] == ')'
  }

  /** An item the text form shows unambiguously: an ingredient as a parsed
      one, on one line, whose own parentheses are all closed when a
      percentage follows and that does not itself end in a group when none
      does; a percentage that is non-empty, trimmed and free of `,` and
      `)`. */
  predicate Printable(item: Item) {
    && item.ingredient != [] && Trimmed(item.ingredient) && Free(item.ingredient, ',')
    && match item.percent
       case None => !EndsInGroup(item.ingredient)
       case Some(p) =>
         && p != [] && Trimmed(p) && Free(p, ',') && Free(p, ')')
         && NoLineTerminator(item.ingredient) && ParensClosed(item.ingredient)
  }

  /** A text that does not end in a group does not match the pattern. */
  lemma NoGroupNoMatch(t: string)
    requires !EndsInGroup(t)
    ensures MatchPercent(t).None?
  {
    forall k | 0 <= k <= |t| ensures !GroupAt(t, k) {
      GroupEndsText(t, k);
    }
  }

  lemma GroupEndsText(t: string, k: nat)
    requires k <= |t|
    ensures GroupAt(t, k) ==> EndsInGroup(t)
  {
    var j := SkipSpace(t, k);
    assert GroupAt(t, k) ==> j + 2 < |t| && t[j] == '(' && t[|t| - 1] == ')' && Free(t[j + 1..|t| - 1], ')');
  }

  /** Inside `name (p)` the lazy group can stop only after the whole name. */
  lemma {:induction false} StopsAfterName(name: string, p: string, k: nat)
    requires Printable(Item(name, Some(p)))
    requires k <= |name|
    ensures LazyStop(name + " (" + p + ")", k) == Some(|name|)
    decreases |name| - k
  {
    var t := name + " (" + p + ")";
    if k == |name| {
      GroupAfterName(name, p);
    } else {
      NoGroupInName(name, p, k);
      assert t[k] == name[k];
      StopsAfterName(name, p, k + 1);
    }
  }

  /** The rest of the pattern matches from the end of the name. */
  lemma GroupAfterName(name: string, p: string)
    requires p != [] && Free(p, ')')
    ensures GroupAt(name + " (" + p + ")", |name|)
  {
    var t := name + " (" + p + ")";
    assert t[|name|] == ' ' && t[|name| + 1] == '(' && t[|t| - 1] == ')';
    SkipSpaceUnique(t, |name|, |name| + 1);
    assert t[|name| + 2..|t| - 1] == p;
  }

  /** Inside the name the rest of the pattern cannot match: the `(` found
      after the whitespace, if any, is closed inside the name. */
  lemma NoGroupInName(name: string, p: string, k: nat)
    requires name != [] && Trimmed(name) && ParensClosed(name)
    requires k < |name|
    ensures !GroupAt(name + " (" + p + ")", k)
  {
    var t := name + " (" + p + ")";
    var j := SkipSpace(t, k);
    assert t[|name| - 1] == name[|name| - 1];
    assert j < |name|;
    assert t[j] == name[j];
    if t[j] == '(' {
      var m :| j < m < |name| && name[m] == ')';
      assert t[m] == ')';
      assert t[j + 1..|t| - 1][m - j - 1] == ')';
    }
  }

  /** Reading the text of a printable item gives the item back, with or
      without the blank that `", "` leaves in front of it. */
  lemma ParseItemText(item: Item)
    requires Printable(item)
    ensures ParseItem(ItemText(item)) == item
    ensures ParseItem(" " + ItemText(item)) == item
  {
    var t := ItemText(item);
    if item.percent.Some? {
      assert t == item.ingredient + " (" + item.percent.value + ")";
      ParsePercentText(item.ingredient, item.percent.value);
    } else {
      assert t == item.ingredient;
      ParseBareText(item.ingredient);
    }
    ParseBlankFront(t);
  }

  lemma ParseBareText(name: string)
    requires Printable(Item(name, None))
    ensures ParseItem(name) == Item(name, None)
  {
    TrimOfTrimmed(name);
    NoGroupNoMatch(name);
  }

  /** A blank in front of a piece does not change how it reads. */
  lemma ParseBlankFront(t: string)
    requires Trimmed(t)
    ensures ParseItem(" " + t) == ParseItem(t)
  {
    TrimBlankFront(t);
    TrimOfTrimmed(t);
  }

  lemma ParsePercentText(name: string, p: string)
    requires Printable(Item(name, Some(p)))
    ensures Trimmed(name + " (" + p + ")")
    ensures ParseItem(name + " (" + p + ")") == Item(name, Some(p))
  {
    var t := name + " (" + p + ")";
    assert t[0] == name[0] && t[|t| - 1] == ')';
    TrimOfTrimmed(t);
    StopsAfterName(name, p, 0);
    SkipSpaceUnique(t, |name|, |name| + 1);
    assert t[..|name|] == name && t[|name| + 2..|t| - 1] == p;
    assert MatchPercent(t) == Some((name, p));
    TrimOfTrimmed(name);
    TrimOfTrimmed(p);
  }

  lemma {:induction false} KeepNamedAll(items: seq<Item>)
    requires forall k :: 0 <= k < |items| ==> items[k].ingredient != []
    ensures KeepNamed(items) == items
    decreases |items|
  {
    if items != [] {
      KeepNamedAll(items[1..]);
    }
  }

  /** The textarea re-derives its text from the parsed list on every edit:
      reading the shown text of printable items gives the items back. */
  lemma EditedTextRoundTrip(items: seq<Item>)
    requires forall k :: 0 <= k < |items| ==> Printable(items[k])
    ensures ParseIngredients(EditedText(items)) == items
  {
    var texts := ItemTexts(items);
    if items == [] {
      assert Split("", ',') == [""] by { assert Find("", ',') == 0; }
      assert ParseItem("").ingredient == "" by {
        TrimOfTrimmed("");
        NoGroupNoMatch("");
      }
    } else {
      TextsFree(items);
      SplitCommaSpace(texts);
      ParsePieces(items, [texts[0]] + Padded(texts[1..]));
      KeepNamedAll(items);
    }
  }

  /** The shown text of a printable item holds no comma. */
  lemma TextsFree(items: seq<Item>)
    requires forall k :: 0 <= k < |items| ==> Printable(items[k])
    ensures forall k :: 0 <= k < |ItemTexts(items)| ==> Free(ItemTexts(items)[k], ',')
  {
    var texts := ItemTexts(items);
    forall k | 0 <= k < |texts| ensures Free(texts[k], ',') {
      var item := items[k];
      if item.percent.Some? {
        assert texts[k] == item.ingredient + " (" + item.percent.value + ")";
      }
    }
  }

  /** Each piece of the split text parses back to its item. */
  lemma ParsePieces(items: seq<Item>, pieces: seq<string>)
    requires forall k :: 0 <= k < |items| ==> Printable(items[k])
    requires items != [] && pieces == [ItemTexts(items)[0]] + Padded(ItemTexts(items)[1..])
    ensures ParseItems(pieces) == items
  {
    var texts := ItemTexts(items);
    forall k | 0 <= k < |items| ensures ParseItem(pieces[k]) == items[k] {
      ParseItemText(items[k]);
      if k > 0 {
        assert pieces[k] == Padded(texts[1..])[k - 1];
      }
    }
  }

  /** A plain extracted list, whose names end in no group, shows as its
      names joined by `", "` and reads back unchanged. */
  lemma InitialListRoundTrip(names: seq<string>)
    requires forall k :: 0 <= k < |names| ==> AnalysisRoutes.ListItem(names[k]) && !EndsInGroup(names[k])
    ensures EditedText(InitialList(ScanData(None, Some(names), None))) == Join(names, ", ")
    ensures ParseIngredients(Join(names, ", ")) == Unlabelled(names)
  {
    var items := Unlabelled(names);
    assert ItemTexts(items) == names;
    EditedTextRoundTrip(items);
  }

  // ---------------------------------------------------------------------
  // The nutrition table as text

  function EntryLines(table: seq<Entry<string>>): (r: seq<string>)
    ensures |r| == |table|
    ensures forall k :: 0 <= k < |table| ==> r[k] == table[k].key + ": " + table[k].value
  {
    seq(|table|, k requires 0 <= k < |table| => table[k].key + ": " + table[k].value)
  }

  /** The nutrition textarea's value: one `key: value` line per property. */
  function NutritionText(table: seq<Entry<string>>): string {
    Join(EntryLines(table), "\n")
  }

  /** The part of `/^([^:]+):\s*(.+)$/` after the colon: some whitespace,
      then a non-empty run without line terminators up to the end. */
  predicate ValueMatches(rest: string) {
    exists m :: 0 <= m < |rest| && AllSpace(rest[..m]) && NoLineTerminator(rest[m..])
  }

  /** `line.match(/^([^:]+):\s*(.+)$/)`: the key is the non-empty text
      before the first `:`, trimmed. The value group runs to the end of the
      line after the whitespace `\s*` takes, so trimming it gives the rest
      of the line after the colon, trimmed. */
  function MatchEntry(line: string): (r: Option<Entry<string>>)
    ensures r.Some? ==> Free(r.value.key, ':') && Trimmed(r.value.key) && Trimmed(r.value.value)
  {
    var c := Find(line, ':');
    if 0 < c < |line| && ValueMatches(line[c + 1..]) then
      FreeTrim(line[..c], ':');
      Some(Entry(Trim(line[..c]), Trim(line[c + 1..])))
    else None
  }

  /** `lines.filter(line => line.trim())`. */
  function NonBlank(lines: seq<string>): (r: seq<string>)
    ensures forall k :: 0 <= k < |r| ==> Trim(r[k]) != [] && r[k] in lines
  {
    if lines == [] then []
    else (if Trim(lines[0]) != [] then [lines[0]] else []) + NonBlank(lines[1..])
  }

  /** Every non-blank line is kept, as often as it occurs, and no blank
      one. */
  lemma {:induction false} NonBlankCounts(lines: seq<string>)
    ensures forall s :: multiset(NonBlank(lines))[s] == if Trim(s) != [] then multiset(lines)[s] else 0
    decreases |lines|
  {
    if lines != [] {
      NonBlankCounts(lines[1..]);
      assert lines == [lines[0]] + lines[1..];
    }
  }

  /** The filter works line by line, so the kept lines keep their order. */
  lemma {:induction false} NonBlankConcat(a: seq<string>, b: seq<string>)
    ensures NonBlank(a + b) == NonBlank(a) + NonBlank(b)
    decreases |a|
  {
    if a == [] {
      assert a + b == b;
    } else {
      assert (a + b)[0] == a[0] && (a + b)[1..] == a[1..] + b;
      NonBlankConcat(a[1..], b);
    }
  }

  /** Every named item is kept, as often as it occurs, and no unnamed
      one. */
  lemma {:induction false} KeepNamedCounts(items: seq<Item>)
    ensures forall it :: multiset(KeepNamed(items))[it] == if it.ingredient != [] then multiset(items)[it] else 0
    decreases |items|
  {
    if items != [] {
      KeepNamedCounts(items[1..]);
      assert items == [items[0]] + items[1..];
    }
  }

  /** The filter works item by item, so the kept items keep their order. */
  lemma {:induction false} KeepNamedConcat(a: seq<Item>, b: seq<Item>)
    ensures KeepNamed(a + b) == KeepNamed(a) + KeepNamed(b)
    decreases |a|
  {
    if a == [] {
      assert a + b == b;
    } else {
      assert (a + b)[0] == a[0] && (a + b)[1..] == a[1..] + b;
      KeepNamedConcat(a[1..], b);
    }
  }

  /** The table that assigning the matching lines in order builds. */
  function TableOf(lines: seq<string>): seq<Entry<string>> {
    if lines == [] then []
    else
      var table := TableOf(lines[..|lines| - 1]);
      match MatchEntry(lines[|lines| - 1])
      case None => table
      case Some(e) => Set(table, e.key, e.value)
  }

  /** What the nutrition textarea's change handler stores: an object, so
      each key at most once. */
  function NutritionTable(text: string): (table: seq<Entry<string>>)
    ensures DistinctKeys(table)
  {
    TableOfDistinct(NonBlank(Split(text, '\n')));
    TableOf(NonBlank(Split(text, '\n')))
  }

  lemma {:induction false} TableOfDistinct(lines: seq<string>)
    ensures DistinctKeys(TableOf(lines))
    decreases |lines|
  {
    if lines != [] {
      var n := |lines| - 1;
      TableOfDistinct(lines[..n]);
      assert lines[..n] == lines[..|lines|][..n];
      TableStep(lines, n);
      assert lines[..n + 1] == lines;
    }
  }

  /** The change handler, assigning `newTable[key] = value` line by line. */
  method ParseNutrition(text: string) returns (newTable: seq<Entry<string>>)
    ensures newTable == NutritionTable(text)
    ensures DistinctKeys(newTable)
  {
    var lines := NonBlank(Split(text, '\n'));
    newTable := [];
    for i := 0 to |lines|
      invariant newTable == TableOf(lines[..i])
      invariant DistinctKeys(newTable)
    {
      TableStep(lines, i);
      var found := MatchEntry(lines[i]);
      if found.Some? {
        newTable := Set(newTable, found.value.key, found.value.value);
      }
    }
    assert lines[..|lines|] == lines;
  }

  /** Line `i`, as the loop body handles it: a match is assigned, and the
      keys stay distinct. */
  lemma TableStep(lines: seq<string>, i: nat)
    requires i < |lines| && DistinctKeys(TableOf(lines[..i]))
    ensures MatchEntry(lines[i]).None? ==> TableOf(lines[..i + 1]) == TableOf(lines[..i])
    ensures MatchEntry(lines[i]).Some? ==>
              TableOf(lines[..i + 1]) == Set(TableOf(lines[..i]), MatchEntry(lines[i]).value.key, MatchEntry(lines[i]).value.value)
    ensures DistinctKeys(TableOf(lines[..i + 1]))
  {
    assert lines[..i + 1][..i] == lines[..i];
    var e := MatchEntry(lines[i]);
    if e.Some? {
      SetGet(TableOf(lines[..i]), e.value.key, e.value.value);
    }
  }

  /** A matching line sets its key to its value, overwriting an earlier
      line with the same key, and leaves every other key alone; a line that
      does not match changes nothing. */
  lemma LaterLineWins(lines: seq<string>, line: string)
    requires DistinctKeys(TableOf(lines))
    ensures MatchEntry(line).None? ==> TableOf(lines + [line]) == TableOf(lines)
    ensures MatchEntry(line).Some? ==>
      var e := MatchEntry(line).value;
      && DistinctKeys(TableOf(lines + [line]))
      && Get(TableOf(lines + [line]), e.key) == Some(e.value)
      && forall other :: other != e.key ==> Get(TableOf(lines + [line]), other) == Get(TableOf(lines), other)
  {
    assert (lines + [line])[..|lines|] == lines;
    if MatchEntry(line).Some? {
      var e := MatchEntry(line).value;
      SetGet(TableOf(lines), e.key, e.value);
    }
  }

  /** A key and value the `key: value` form shows unambiguously. */
  predicate PrintableEntry(e: Entry<string>) {
    && e.key != [] && Trimmed(e.key) && Free(e.key, ':') && Free(e.key, '\n')
    && e.value != [] && Trimmed(e.value) && NoLineTerminator(e.value)
  }

  /** The line of a printable entry matches and gives the entry back. */
  lemma MatchEntryLine(e: Entry<string>)
    requires PrintableEntry(e)
    ensures MatchEntry(e.key + ": " + e.value) == Some(e)
  {
    var line := e.key + ": " + e.value;
    assert line == e.key + (": " + e.value);
    FindAfterFree(e.key, ": " + e.value, ':');
    assert Find(": " + e.value, ':') == 0;
    var c := |e.key|;
    assert line[..c] == e.key;
    var rest := line[c + 1..];
    assert rest == " " + e.value;
    BlankValueMatches(e.value);
    TrimOfTrimmed(e.key);
    TrimBlankFront(e.value);
  }

  lemma BlankValueMatches(v: string)
    requires NoLineTerminator(v)
    ensures ValueMatches(" " + v)
  {
    var rest := " " + v;
    assert rest[..0] == [] && rest[0..] == rest;
    assert forall i :: 1 <= i < |rest| ==> rest[i] == v[i - 1];
    assert NoLineTerminator(rest);
  }

  lemma {:induction false} TableOfLines(table: seq<Entry<string>>)
    requires DistinctKeys(table)
    requires forall k :: 0 <= k < |table| ==> PrintableEntry(table[k])
    ensures TableOf(EntryLines(table)) == table
    decreases |table|
  {
    if table != [] {
      var init := table[..|table| - 1];
      var last := table[|table| - 1];
      assert EntryLines(table)[..|table| - 1] == EntryLines(init);
      TableOfLines(init);
      MatchEntryLine(last);
      assert !HasKey(init, last.key);
      assert init + [last] == table;
    }
  }

  lemma {:induction false} NonBlankAll(lines: seq<string>)
    requires forall k :: 0 <= k < |lines| ==> Trim(lines[k]) != []
    ensures NonBlank(lines) == lines
    decreases |lines|
  {
    if lines != [] {
      NonBlankAll(lines[1..]);
    }
  }

  /** A line that starts with a non-blank character is not blank. */
  lemma NotBlank(s: string)
    requires s != [] && !IsSpace(s[0])
    ensures Trim(s) != []
  {
    SkipSpaceUnique(s, 0, 0);
  }

  /** Showing a table as `key: value` lines and reading the text back gives
      the table, when every key is non-empty, trimmed and free of `:` and
      newlines and every value is non-empty, trimmed and on one line. */
  lemma NutritionRoundTrip(table: seq<Entry<string>>)
    requires DistinctKeys(table)
    requires forall k :: 0 <= k < |table| ==> PrintableEntry(table[k])
    ensures NutritionTable(NutritionText(table)) == table
  {
    var lines := EntryLines(table);
    if table == [] {
      assert Split("", '\n') == [""] by { assert Find("", '\n') == 0; }
      TrimOfTrimmed("");
    } else {
      forall k | 0 <= k < |lines| ensures Free(lines[k], '\n') && Trim(lines[k]) != [] {
        var e := table[k];
        assert lines[k] == e.key + ": " + e.value;
        assert forall i :: 0 <= i < |e.value| ==> e.value[i] != '\n';
        assert lines[k][0] == e.key[0];
        NotBlank(lines[k]);
      }
      SplitJoin(lines, '\n');
      NonBlankAll(lines);
      TableOfLines(table);
    }
  }

  // ---------------------------------------------------------------------
  // Confirm & Analyze

  /** The request `handleConfirmAndAnalyze` sends. */
  datatype AnalysisRequest = AnalysisRequest(
    ingredients: seq<Item>, productName: string, nutritionTable: seq<Entry<string>>)

  datatype Confirmation = EmptyListError(message: string) | Send(request: AnalysisRequest)

  const EmptyListMessage := "Please provide at least one ingredient"

  /** `handleConfirmAndAnalyze` up to the request: an empty list sets the
      error and sends nothing; otherwise the list, the product name and the
      table are sent as they are. */
  function ConfirmAndAnalyze(items: seq<Item>, productName: string, table: seq<Entry<string>>): (r: Confirmation)
    ensures r.EmptyListError? <==> items == []
    ensures r.EmptyListError? ==> r.message == EmptyListMessage
    ensures r.Send? ==> r.request == AnalysisRequest(items, productName, table)
  {
    if |items| == 0 then EmptyListError(EmptyListMessage)
    else Send(AnalysisRequest(items, productName, table))
  }

  /** The answer to the request: the report, or a failure with the
      server's message, if any. */
  datatype AnalysisResponse<R> = Success(report: R) | Failure(serverMessage: Option<string>)

  /** What the screen does with the answer: hand `{ step: 'results',
      report }` to the application, or show the server's message (an empty
      one counts as none) or the generic one. */
  datatype ConfirmOutcome<R> = Completed(step: string, report: R) | ShowError(message: string)

  const AnalyzeFailedMessage := "Failed to analyze ingredients. Please try again."

  function OnAnalysisResponse<R>(response: AnalysisResponse<R>): (r: ConfirmOutcome<R>)
    ensures response.Success? ==> r == Completed("results", response.report)
    ensures response.Failure? ==> r.ShowError? && r.message != ""
    ensures response.Failure? && response.serverMessage.Some? && response.serverMessage.value != "" ==>
              r.message == response.serverMessage.value
    ensures response.Failure? && (response.serverMessage.None? || response.serverMessage.value == "") ==>
              r.message == AnalyzeFailedMessage
  {
    match response
    case Success(report) => Completed("results", report)
    case Failure(message) =>
      ShowError(if message.Some? && message.value != "" then message.value else AnalyzeFailedMessage)
  }
}
