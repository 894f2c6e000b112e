/** The comparison window of DataComparison.py: the files loaded for
    comparison, each drawn in its own colour from a pool of five, the
    labels and remove buttons listed beside the plots, and the series
    `plotMovement` gathers from the loaded tables. */
module DataComparison {
  import opened Wrappers
  import opened Lists
  import opened Strings
  import opened PlotLimits

  datatype Color = Blue | Green | Red | Yellow | Orange

  /** The colour pool in its initial order. */
  const Palette: seq<Color> := [Blue, Green, Red, Yellow, Orange]

  /** A loaded text file, transposed: one array per column, the time in
      column 0 and x, y, v, a in columns 1 to 4. */
  type Table = seq<seq<real>>

  /** A file label: its text, its foreground colour and the row it is
      placed at. */
  datatype Label = Label(text: string, color: Color, row: nat)

  /** A remove button: the index its command removes and the row it is
      placed at. */
  datatype RemoveButton = RemoveButton(target: nat, row: nat)

  /** `file.split("/")[-1]`: the text after the last `'/'`, or the whole
      name when it has none. */
  function BaseName(file: string): (name: string)
    ensures '/' !in name
    ensures |name| <= |file| && file[|file| - |name|..] == name
    ensures |name| == |file| || file[|file| - |name| - 1] == '/'
  {
    SplitLast(file, '/');
    var parts := Split(file, '/');
    parts[|parts| - 1]
  }

  /** Every colour is either used or free, and only once. */
  predicate Partition(colors: seq<Color>, free: seq<Color>) {
    forall c: Color :: Count(colors, c) + Count(free, c) == 1
  }

  /** The palette holds every colour once. */
  lemma PaletteOnce(c: Color)
    ensures Count(Palette, c) == 1
  {
  }

  /** A partition is exactly a split of the palette's multiset of colours. */
  lemma PartitionMultiset(colors: seq<Color>, free: seq<Color>)
    ensures Partition(colors, free) <==> multiset(colors) + multiset(free) == multiset(Palette)
  {
    forall c: Color
      ensures Count(colors, c) + Count(free, c) == (multiset(colors) + multiset(free))[c]
      ensures multiset(Palette)[c] == 1
    {
      CountMultiset(colors, c);
      CountMultiset(free, c);
      CountMultiset(Palette, c);
      PaletteOnce(c);
    }
    if multiset(colors) + multiset(free) == multiset(Palette) {
      assert Partition(colors, free);
    }
  }

  /** Every entry is counted under its own colour. */
  lemma {:induction false} CountColors(s: seq<Color>)
    ensures Count(s, Blue) + Count(s, Green) + Count(s, Red) + Count(s, Yellow) + Count(s, Orange) == |s|
  {
    if |s| > 0 {
      CountColors(s[1..]);
      assert s[0].Blue? || s[0].Green? || s[0].Red? || s[0].Yellow? || s[0].Orange?;
    }
  }

  /** The used colours are at most five, all different: no two files are
      drawn in the same colour. */
  lemma PartitionBounds(colors: seq<Color>, free: seq<Color>)
    requires Partition(colors, free)
    ensures |colors| + |free| == |Palette|
    ensures forall i, j :: 0 <= i < j < |colors| ==> colors[i] != colors[j]
  {
    CountColors(colors);
    CountColors(free);
    assert Count(colors, Blue) + Count(free, Blue) == 1;
    assert Count(colors, Green) + Count(free, Green) == 1;
    assert Count(colors, Red) + Count(free, Red) == 1;
    assert Count(colors, Yellow) + Count(free, Yellow) == 1;
    assert Count(colors, Orange) + Count(free, Orange) == 1;
    forall i, j | 0 <= i < j < |colors|
      ensures colors[i] != colors[j]
    {
      if colors[i] == colors[j] {
        CountPair(colors, i, j);
      }
    }
  }

  /** Rows `from` up to `to` of the labels placed again at their own index. */
  function Replaced(ls: seq<Label>, from: nat, to: nat): (r: seq<Label>)
    ensures |r| == |ls|
    ensures forall k :: 0 <= k < |ls| ==> r[k] == if from <= k < to then ls[k].(row := k) else ls[k]
  {
    seq(|ls|, k requires 0 <= k < |ls| => if from <= k < to then ls[k].(row := k) else ls[k])
  }

  /** Buttons `from` up to `to` given the command and the row of their own
      index. */
  function Rewired(bs: seq<RemoveButton>, from: nat, to: nat): (r: seq<RemoveButton>)
    ensures |r| == |bs|
    ensures forall k :: 0 <= k < |bs| ==> r[k] == if from <= k < to then RemoveButton(k, k) else bs[k]
  {
    seq(|bs|, k requires 0 <= k < |bs| => if from <= k < to then RemoveButton(k, k) else bs[k])
  }

  /** The labels and buttons of the start-up loop for the first files of
      the saved list, each in the next palette colour. */
  function StartLabels(saved: seq<string>): (r: seq<Label>)
    requires |saved| <= |Palette|
    ensures |r| == |saved|
    ensures forall i :: 0 <= i < |saved| ==> r[i] == Label(BaseName(saved[i]), Palette[i], i)
  {
    seq(|saved|, i requires 0 <= i < |saved| => Label(BaseName(saved[i]), Palette[i], i))
  }

  function StartButtons(n: nat): (r: seq<RemoveButton>)
    ensures |r| == n
    ensures forall i :: 0 <= i < n ==> r[i] == RemoveButton(i, i)
  {
    seq(n, i requires 0 <= i < n => RemoveButton(i, i))
  }

  /** How many of `count` saved files the start-up loop loads. */
  function Loaded(count: nat): nat {
    if count < |Palette| then count else |Palette|
  }

  lemma StartNext(saved: seq<string>, i: nat)
    requires i < |saved| && i < |Palette|
    ensures StartLabels(saved[..i + 1]) == StartLabels(saved[..i]) + [Label(BaseName(saved[i]), Palette[i], i)]
    ensures StartButtons(i + 1) == StartButtons(i) + [RemoveButton(i, i)]
    ensures Palette[..i + 1] == Palette[..i] + [Palette[i]]
    ensures Palette[i..][0] == Palette[i] && Palette[i..][1..] == Palette[i + 1..]
  {
  }

  /** Taking one more element of a prefix. */
  lemma PrefixNext<T>(s: seq<T>, i: nat)
    requires i < |s|
    ensures s[..i + 1] == s[..i] + [s[i]]
  {
  }

  /** The start-up loop over `settings["openedFiles"]`: it stops when no
      colour is left, and loads each file it reaches, taking the first free
      colour. `tables[i]` is the content of `saved[i]`. */
  method LoadSaved(saved: seq<string>, tables: seq<Table>)
    returns (data: seq<Table>, colors: seq<Color>, free: seq<Color>,
             texts: seq<Label>, buttons: seq<RemoveButton>)
    requires |tables| == |saved|
    ensures var n := Loaded(|saved|);
      data == tables[..n] && colors == Palette[..n] && free == Palette[n..] &&
      texts == StartLabels(saved[..n]) && buttons == StartButtons(n)
  {
    data, colors, free, texts, buttons := [], [], Palette, [], [];
    var i := 0;
    while i < |saved|
      invariant i <= |saved| && i <= |Palette|
      invariant colors == Palette[..i] && free == Palette[i..]
      invariant data == tables[..i] && texts == StartLabels(saved[..i]) && buttons == StartButtons(i)
    {
      if |free| == 0 {
        break;
      }
      StartNext(saved, i);
      PrefixNext(tables, i);
      var c := free[0];
      colors := colors + [c];
      free := free[1..];
      data := data + [tables[i]];
      texts := texts + [Label(BaseName(saved[i]), c, i)];
      buttons := buttons + [RemoveButton(i, i)];
      i := i + 1;
    }
    assert i == Loaded(|saved|);
  }

  /** Every loaded table has its colour, its label in that colour and its
      remove button, both at the table's own row, and the button removes
      that row; the used and the free colours make up the palette. */
  predicate Listed(data: seq<Table>, colors: seq<Color>, free: seq<Color>,
                   texts: seq<Label>, buttons: seq<RemoveButton>) {
    |data| == |colors| == |texts| == |buttons| &&
    Partition(colors, free) &&
    (forall i :: 0 <= i < |texts| ==> texts[i].color == colors[i] && texts[i].row == i) &&
    (forall i :: 0 <= i < |buttons| ==> buttons[i] == RemoveButton(i, i))
  }

  /** Each label shows the base name of the saved file at its index. */
  predicate Named(files: seq<string>, texts: seq<Label>) {
    |files| == |texts| &&
    forall i :: 0 <= i < |texts| ==> texts[i].text == BaseName(files[i])
  }

  /** The start-up loop leaves the loaded files listed, and named after the
      saved files it loaded. */
  lemma StartListed(saved: seq<string>, tables: seq<Table>)
    requires |tables| == |saved|
    ensures var n := Loaded(|saved|);
      Listed(tables[..n], Palette[..n], Palette[n..], StartLabels(saved[..n]), StartButtons(n)) &&
      Named(saved[..n], StartLabels(saved[..n]))
  {
    var n := Loaded(|saved|);
    assert Palette[..n] + Palette[n..] == Palette;
    forall c: Color
      ensures Count(Palette[..n], c) + Count(Palette[n..], c) == 1
    {
      CountAppend(Palette[..n], Palette[n..], c);
      PaletteOnce(c);
    }
  }

  /** Adding a file with the first free colour keeps the files listed. */
  lemma AddListed(data: seq<Table>, colors: seq<Color>, free: seq<Color>,
                  texts: seq<Label>, buttons: seq<RemoveButton>, name: string, table: Table)
    requires Listed(data, colors, free, texts, buttons) && |free| > 0
    ensures Listed(data + [table], colors + [free[0]], free[1..],
                   texts + [Label(name, free[0], |data|)], buttons + [RemoveButton(|data|, |data|)])
  {
    forall c: Color
      ensures Count(colors + [free[0]], c) + Count(free[1..], c) == 1
    {
      CountAppend(colors, [free[0]], c);
      CountAppend([free[0]], free[1..], c);
      assert free == [free[0]] + free[1..];
    }
  }

  /** Removing entry `id`, handing its colour back and moving the later
      labels and buttons up keeps the files listed. */
  lemma RemoveListed(data: seq<Table>, colors: seq<Color>, free: seq<Color>,
                     texts: seq<Label>, buttons: seq<RemoveButton>, id: nat)
    requires Listed(data, colors, free, texts, buttons) && id < |data|
    ensures Listed(RemoveAt(data, id), RemoveAt(colors, id), free + [colors[id]],
                   Replaced(RemoveAt(texts, id), id, |texts| - 1),
                   Rewired(RemoveAt(buttons, id), id, |buttons| - 1))
  {
    forall c: Color
      ensures Count(RemoveAt(colors, id), c) + Count(free + [colors[id]], c) == 1
    {
      CountRemoveAt(colors, id, c);
      CountAppend(free, [colors[id]], c);
    }
  }

  /** Saved names and labels removed at the same index stay matched. */
  lemma RemoveNamed(files: seq<string>, texts: seq<Label>, id: nat)
    requires Named(files, texts) && id < |texts|
    ensures Named(RemoveAt(files, id), Replaced(RemoveAt(texts, id), id, |texts| - 1))
  {
  }

  /** The loop of `removeFile` over the labels and buttons from `from` on:
      each is placed at its own row, each button now removing its own
      index. */
  method Replace(texts: seq<Label>, buttons: seq<RemoveButton>, from: nat)
    returns (ts: seq<Label>, bs: seq<RemoveButton>)
    requires |texts| == |buttons| && from <= |texts|
    ensures ts == Replaced(texts, from, |texts|)
    ensures bs == Rewired(buttons, from, |buttons|)
  {
    ts, bs := texts, buttons;
    for i := from to |texts|
      invariant ts == Replaced(texts, from, i)
      invariant bs == Rewired(buttons, from, i)
    {
      ts := ts[i := ts[i].(row := i)];
      bs := bs[i := RemoveButton(i, i)];
    }
  }

  class Comparison {
    /** `settings["openedFiles"]`: the saved file names. */
    var openedFiles: seq<string>
    /** `data`: the loaded tables. */
    var data: seq<Table>
    /** `colors` and `leftColors`: the colours in use, one per loaded table,
        and the free ones. */
    var colors: seq<Color>
    var leftColors: seq<Color>
    /** `filesTexts` and `removeButtons`. */
    var texts: seq<Label>
    var buttons: seq<RemoveButton>

    /** The loaded files are listed, and every one has a saved name, so that
        `removeFile` can delete it. */
    predicate Valid()
      reads this
    {
      Listed(data, colors, leftColors, texts, buttons) && |data| <= |openedFiles|
    }

    /** The saved file names are exactly those of the loaded tables. */
    predicate Aligned()
      reads this
    {
      Named(openedFiles, texts)
    }

    /** The start-up code as written: the first five saved files are loaded
        but `settings["openedFiles"]` keeps every saved name, so with more
        than five saved files the saved names and the loaded tables no
        longer line up. */
    constructor StartupAsWritten(saved: seq<string>, tables: seq<Table>)
      requires |tables| == |saved|
      ensures var n := Loaded(|saved|);
        data == tables[..n] && colors == Palette[..n] && leftColors == Palette[n..] &&
        texts == StartLabels(saved[..n]) && buttons == StartButtons(n)
      ensures openedFiles == saved
      ensures Valid()
      ensures Aligned() <==> |saved| <= |Palette|
    {
      openedFiles := saved;
      var d, c, f, l, b := LoadSaved(saved, tables);
      data, colors, leftColors, texts, buttons := d, c, f, l, b;
      StartListed(saved, tables);
      assert |saved| <= |Palette| ==> saved[..Loaded(|saved|)] == saved;
    }

    /** Start-up keeping as saved names only the files that were loaded. */
    constructor Startup(saved: seq<string>, tables: seq<Table>)
      requires |tables| == |saved|
      ensures var n := Loaded(|saved|);
        data == tables[..n] && colors == Palette[..n] && leftColors == Palette[n..] &&
        texts == StartLabels(saved[..n]) && buttons == StartButtons(n) &&
        openedFiles == saved[..n]
      ensures Valid() && Aligned()
    {
      openedFiles := saved[..Loaded(|saved|)];
      var d, c, f, l, b := LoadSaved(saved, tables);
      data, colors, leftColors, texts, buttons := d, c, f, l, b;
      StartListed(saved, tables);
    }

    /** `addFile`: an empty `file` is a cancelled dialog. A file is added
        only when one was chosen and a colour is free; it takes the first
        free colour, and its label and button go to the next row. */
    method AddFile(file: string, table: Table) returns (added: bool)
      modifies this
      ensures added <==> file != "" && |old(leftColors)| > 0
      ensures !added ==> (openedFiles == old(openedFiles) && data == old(data) &&
        colors == old(colors) && leftColors == old(leftColors) &&
        texts == old(texts) && buttons == old(buttons))
      ensures added ==>
        var row := |old(data)|;
        data == old(data) + [table] &&
        colors == old(colors) + [old(leftColors)[0]] &&
        leftColors == old(leftColors)[1..] &&
        openedFiles == old(openedFiles) + [file] &&
        texts == old(texts) + [Label(BaseName(file), old(leftColors)[0], row)] &&
        buttons == old(buttons) + [RemoveButton(row, row)]
      ensures old(Valid()) ==> Valid()
      ensures old(Valid()) && old(Aligned()) ==> Aligned()
    {
      if file == "" || |leftColors| == 0 {
        return false;
      }
      data := data + [table];
      colors := colors + [leftColors[0]];
      leftColors := leftColors[1..];
      openedFiles := openedFiles + [file];
      texts := texts + [Label(BaseName(file), colors[|colors| - 1], |data| - 1)];
      buttons := buttons + [RemoveButton(|data| - 1, |data| - 1)];
      added := true;
      if old(Valid()) {
        AddListed(old(data), old(colors), old(leftColors), old(texts), old(buttons), BaseName(file), table);
      }
    }

    /** `removeFile(id)`: entry `id` leaves every list, its colour goes to
        the end of the free colours, and the later labels and buttons move
        up one row, their buttons now removing their new index. */
    method RemoveFile(id: nat)
      requires Valid() && id < |data|
      modifies this
      ensures openedFiles == RemoveAt(old(openedFiles), id)
      ensures data == RemoveAt(old(data), id)
      ensures colors == RemoveAt(old(colors), id)
      ensures leftColors == old(leftColors) + [old(colors)[id]]
      ensures texts == Replaced(RemoveAt(old(texts), id), id, |old(texts)| - 1)
      ensures buttons == Rewired(RemoveAt(old(buttons), id), id, |old(buttons)| - 1)
      ensures Valid()
      ensures old(Aligned()) ==> Aligned()
    {
      openedFiles := RemoveAt(openedFiles, id);
      data := RemoveAt(data, id);
      var shifted := RemoveAt(texts, id);
      var moved := RemoveAt(buttons, id);
      leftColors := leftColors + [colors[id]];
      colors := RemoveAt(colors, id);
      texts, buttons := Replace(shifted, moved, id);
      RemoveListed(old(data), old(colors), old(leftColors), old(texts), old(buttons), id);
      if old(Aligned()) {
        RemoveNamed(old(openedFiles), old(texts), id);
      }
    }

    /** `removeAllFiles`: no file is loaded and the free colours are the
        whole palette again, in its initial order. */
    method RemoveAllFiles()
      modifies this
      ensures openedFiles == [] && data == [] && colors == []
      ensures texts == [] && buttons == []
      ensures leftColors == Palette
      ensures Valid() && Aligned()
    {
      openedFiles := [];
      data := [];
      texts := [];
      buttons := [];
      leftColors := Palette;
      colors := [];
      forall c: Color
        ensures Count(Palette, c) == 1
      {
        PaletteOnce(c);
      }
    }
  }

  /** Six saved files `a` to `f`: after removing `a`, adding `g` and
      removing `g` again by its button, `g` is still saved while `f`, never
      loaded, is gone from the saved names. */
  method MisalignedRemoval() returns (c: Comparison)
    ensures c.openedFiles == ["b", "c", "d", "e", "g"]
    ensures c.data == [[[2.0]], [[3.0]], [[4.0]], [[5.0]]]
  {
    c := new Comparison.StartupAsWritten(["a", "b", "c", "d", "e", "f"],
                                         [[[1.0]], [[2.0]], [[3.0]], [[4.0]], [[5.0]], [[6.0]]]);
    c.RemoveFile(0);
    var added := c.AddFile("g", [[7.0]]);
    c.RemoveFile(4);
  }

  /** The legends and y labels of the four series. */
  const Legends: seq<string> := ["x(t)", "y(t)", "v(t)", "a(t)"]
  const YLabels: seq<string> := ["x[m]", "y[m]", "v[m/s]", "a[m/s²]"]

  /** The options enabled, by index, in increasing order. */
  function Enabled(options: seq<bool>): (r: seq<nat>)
    ensures |r| <= |options|
    ensures forall g :: 0 <= g < |r| ==> r[g] < |options| && options[r[g]]
  {
    if |options| == 0 then []
    else
      var last := |options| - 1;
      Enabled(options[..last]) + (if options[last] then [last] else [])
  }

  /** `Enabled` lists every enabled option once, in increasing order. */
  lemma {:induction false} EnabledExactly(options: seq<bool>)
    ensures forall g, h :: 0 <= g < h < |Enabled(options)| ==> Enabled(options)[g] < Enabled(options)[h]
    ensures forall i :: 0 <= i < |options| && options[i] ==> i in Enabled(options)
  {
    if |options| > 0 {
      var last := |options| - 1;
      EnabledExactly(options[..last]);
      forall i | 0 <= i < last && options[i]
        ensures i in Enabled(options)
      {
        assert options[..last][i] == options[i];
      }
    }
  }

  /** Every table holds the columns of the enabled options. */
  predicate Readable(options: seq<bool>, data: seq<Table>) {
    forall j, i :: 0 <= j < |data| && 0 <= i < |options| && options[i] ==> i + 1 < |data[j]|
  }

  /** Column `c` of each table. */
  function Column(data: seq<Table>, c: nat): (r: seq<seq<real>>)
    requires forall j :: 0 <= j < |data| ==> c < |data[j]|
    ensures |r| == |data|
    ensures forall j :: 0 <= j < |data| ==> r[j] == data[j][c]
  {
    seq(|data|, j requires 0 <= j < |data| => data[j][c])
  }

  /** One series group: the times and values of every table, with the
      group's legend and y label. */
  datatype Series = Series(times: seq<seq<real>>, values: seq<seq<real>>, legend: string, ylabel: string)

  function SeriesOf(data: seq<Table>, i: nat): (r: Series)
    requires i < |Legends|
    requires forall j :: 0 <= j < |data| ==> i + 1 < |data[j]|
  {
    Series(Column(data, 0), Column(data, i + 1), Legends[i], YLabels[i])
  }

  /** The series groups of the enabled options, in option order. */
  function Gathered(options: seq<bool>, data: seq<Table>): (r: seq<Series>)
    requires |options| <= |Legends| && Readable(options, data)
    ensures |r| == |Enabled(options)|
  {
    var e := Enabled(options);
    seq(|e|, g requires 0 <= g < |e| => SeriesOf(data, e[g]))
  }

  /** Option `i` adds to what the options before it read its own column,
      if it is enabled. */
  lemma ReadableNext(options: seq<bool>, data: seq<Table>, i: nat)
    requires i < |options|
    ensures Readable(options[..i + 1], data) <==>
      Readable(options[..i], data) && (options[i] ==> forall j :: 0 <= j < |data| ==> i + 1 < |data[j]|)
    ensures Readable(options, data) ==> Readable(options[..i + 1], data)
  {
    assert options[..i + 1][..i] == options[..i];
    assert options[..i + 1][i] == options[i];
  }

  lemma GatheredNext(options: seq<bool>, data: seq<Table>, i: nat)
    requires i < |options| <= |Legends| && Readable(options, data)
    ensures Gathered(options[..i + 1], data) ==
      Gathered(options[..i], data) + (if options[i] then [SeriesOf(data, i)] else [])
  {
    assert options[..i + 1][..i] == options[..i];
  }

  /** A subplot `createPlot` draws: its place in the column of subplots, the
      series drawn in the tables' colours, and its symmetric y limits
      (`None` where `np.amax` or `np.amin` raises on an empty array). */
  datatype Subplot = Subplot(rows: nat, position: nat, series: Series, colors: seq<Color>, limits: Option<Limits>)

  /** What `plotMovement` draws: nothing without a loaded table, otherwise
      one subplot per series group; `None` where a table lacks a column an
      enabled option reads. */
  function Figure(options: seq<bool>, data: seq<Table>, colors: seq<Color>): (r: Option<seq<Subplot>>)
    requires |options| == |Legends|
    ensures r.Some? <==> Readable(options, data)
  {
    if !Readable(options, data) then None
    else if |data| == 0 then Some([])
    else
      Some(Subplots(Gathered(options, data), colors))
  }

  /** The inner loop of `plotMovement` for option `i`: column 0 and
      column `i + 1` of every table, or failure where a table lacks the
      column (`IndexError`). */
  method ReadColumns(data: seq<Table>, i: nat) returns (ok: bool, x: seq<seq<real>>, y: seq<seq<real>>)
    ensures ok <==> forall j :: 0 <= j < |data| ==> i + 1 < |data[j]|
    ensures ok ==> x == Column(data, 0) && y == Column(data, i + 1)
  {
    x, y := [], [];
    for j := 0 to |data|
      invariant forall k :: 0 <= k < j ==> i + 1 < |data[k]|
      invariant x == Column(data[..j], 0) && y == Column(data[..j], i + 1)
    {
      if |data[j]| <= i + 1 {
        return false, x, y;
      }
      x := x + [data[j][0]];
      y := y + [data[j][i + 1]];
    }
    assert data[..|data|] == data;
    ok := true;
  }

  /** The outer loop of `plotMovement`: one group per enabled option, in
      option order. */
  method GatherSeries(options: seq<bool>, data: seq<Table>) returns (r: Option<seq<Series>>)
    requires |options| == |Legends|
    ensures r.Some? <==> Readable(options, data)
    ensures r.Some? ==> r.value == Gathered(options, data)
  {
    var groups: seq<Series> := [];
    for i := 0 to 4
      invariant Readable(options[..i], data)
      invariant groups == Gathered(options[..i], data)
    {
      ReadableNext(options, data, i);
      if options[i] {
        var ok, x, y := ReadColumns(data, i);
        if !ok {
          return None;
        }
        groups := groups + [Series(x, y, Legends[i], YLabels[i])];
      }
      assert options[..i + 1][..i] == options[..i];
      GatheredNext(options[..i + 1], data, i);
    }
    assert options[..4] == options;
    r := Some(groups);
  }

  /** The subplots of the groups, in order, one below the other. */
  function Subplots(groups: seq<Series>, colors: seq<Color>): (r: seq<Subplot>)
    ensures |r| == |groups|
    ensures forall g :: 0 <= g < |groups| ==>
      r[g] == Subplot(|groups|, g + 1, groups[g], colors, YLimits(groups[g].values, true))
  {
    seq(|groups|, g requires 0 <= g < |groups| =>
      Subplot(|groups|, g + 1, groups[g], colors, YLimits(groups[g].values, true)))
  }

  /** `plotMovement`: the series are gathered, then one subplot is made per
      group when a table is loaded. */
  method PlotMovement(options: seq<bool>, data: seq<Table>, colors: seq<Color>) returns (r: Option<seq<Subplot>>)
    requires |options| == |Legends|
    ensures r == Figure(options, data, colors)
  {
    var groups := GatherSeries(options, data);
    if groups.None? {
      return None;
    }
    if |data| == 0 {
      return Some([]);
    }
    var gs := groups.value;
    var plots: seq<Subplot> := [];
    for g := 0 to |gs|
      invariant |plots| == g
      invariant forall h :: 0 <= h < g ==> plots[h] == Subplot(|gs|, h + 1, gs[h], colors, YLimits(gs[h].values, true))
    {
      plots := plots + [Subplot(|gs|, g + 1, gs[g], colors, YLimits(gs[g].values, true))];
    }
    assert plots == Subplots(gs, colors);
    r := Some(plots);
  }

  /** One subplot per enabled option, in option order, drawing column 0
      of every table against the option's column; its limits, when the
      values can be plotted, are symmetric about 0 and hold every value. */
  lemma FigureSubplots(options: seq<bool>, data: seq<Table>, colors: seq<Color>, g: nat)
    requires |options| == |Legends| && Readable(options, data) && |data| > 0
    requires g < |Enabled(options)|
    ensures var s := Figure(options, data, colors).value[g];
      var i := Enabled(options)[g];
      options[i] &&
      s.rows == |Enabled(options)| && s.position == g + 1 &&
      s.series.legend == Legends[i] && s.series.ylabel == YLabels[i] &&
      |s.series.times| == |s.series.values| == |data| &&
      (forall j :: 0 <= j < |data| ==> s.series.times[j] == data[j][0] && s.series.values[j] == data[j][i + 1]) &&
      (s.limits.Some? <==> Plottable(s.series.values)) &&
      (s.limits.Some? ==> s.limits.value.low == -s.limits.value.high &&
                          Within(s.series.values, s.limits.value.low, s.limits.value.high))
  {
    var s := Figure(options, data, colors).value[g];
    if s.limits.Some? {
      SymmetricLimits(s.series.values);
    }
  }
}
