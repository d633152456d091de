/**
 * The editor's level files (level_editor.py, the load and save buttons): the
 * path built from the text field, the level number read back out of it, the
 * copy of the default level made when the file is missing, and the load and
 * save themselves. The level directory is a map from path to grid.
 */
module LevelFiles {
  import opened Common
  import opened Grid
  import opened EditorWorld

  /** The level directory: every readable level file and its grid. */
  type Files = map<string, Grid>

  const DefaultLevel := "lvl/world_data0.pkl"

  /** The path of the level named in the text field. */
  function LevelPath(name: string): string {
    "lvl/" + name + ".pkl"
  }

  /** The slice `path[14:len(path) - 4]`, with Python's clamping of slice bounds. */
  function NumberPart(path: string): string {
    if |path| - 4 <= 14 then "" else path[14..|path| - 4]
  }

  /** The number is read from the typed name after its tenth character, the length of "world_data". */
  lemma NumberOfName(name: string)
    ensures NumberPart(LevelPath(name)) == if |name| <= 10 then "" else name[10..]
  {
    var path := LevelPath(name);
    if |name| > 10 {
      assert path[14..|path| - 4] == name[10..];
    }
  }

  // ---------------------------------------------------------------------------
  // Decimal numerals

  predicate IsDigit(c: char) { '0' <= c <= '9' }

  predicate AllDigits(s: string) { forall i :: 0 <= i < |s| ==> IsDigit(s[i]) }

  function DigitChar(d: int): (c: char)
    requires 0 <= d < 10
    ensures IsDigit(c) && c as int - '0' as int == d
  {
    ('0' as int + d) as char
  }

  /** The value of a string of decimal digits. */
  function DigitsValue(s: string): nat
    requires AllDigits(s)
    decreases |s|
  {
    if |s| == 0 then 0 else DigitsValue(s[..|s| - 1]) * 10 + (s[|s| - 1] as int - '0' as int)
  }

  /** int() on a string: an optional sign and at least one digit. */
  function ParseInt(s: string): Option<int> {
    var negative := |s| > 0 && s[0] == '-';
    var digits := if |s| > 0 && (s[0] == '-' || s[0] == '+') then s[1..] else s;
    if |digits| > 0 && AllDigits(digits) then
      var v: int := DigitsValue(digits);
      Some(if negative then -v else v)
    else None
  }

  /** The decimal numeral of a natural number, without leading zeros. */
  function Numeral(n: nat): string
    decreases n
  {
    if n < 10 then [DigitChar(n)] else Numeral(n / 10) + [DigitChar(n % 10)]
  }

  /** An f-string's rendering of an integer. */
  function IntToString(n: int): string {
    if n < 0 then "-" + Numeral(-n) else Numeral(n)
  }

  lemma {:induction false} NumeralDigits(n: nat)
    ensures |Numeral(n)| > 0 && AllDigits(Numeral(n)) && DigitsValue(Numeral(n)) == n
    ensures Numeral(n)[0] == '0' ==> n == 0
    decreases n
  {
    if n >= 10 {
      NumeralDigits(n / 10);
      var s := Numeral(n);
      assert s[..|s| - 1] == Numeral(n / 10);
    }
  }

  /** Reading back a rendered integer gives the integer. */
  lemma ParseIntRoundTrip(n: int)
    ensures ParseInt(IntToString(n)) == Some(n)
  {
    if n < 0 {
      NumeralDigits(-n);
      var s := "-" + Numeral(-n);
      assert s[0] == '-' && s[1..] == Numeral(-n);
    } else {
      NumeralDigits(n);
      var s := Numeral(n);
      assert IsDigit(s[0]);
    }
  }

  // ---------------------------------------------------------------------------
  // The load button

  /** ValueError from int(), and IOError from load_data. */
  datatype LoadError = NotANumber(text: string) | ReadFailed(path: string)

  /** The directory after the load, the new current level, and the grid read or the error. */
  datatype Loaded = Loaded(files: Files, current: string, data: Result<Grid, LoadError>)

  /** The file the default level is copied to when the typed level is missing. */
  function CopyName(n: int): string {
    "lvl/world_data" + IntToString(n) + ".pkl"
  }

  /** What the load button does with the typed name. */
  function LoadLevel(files: Files, name: string): Loaded {
    var path := LevelPath(name);
    if path in files then Loaded(files, path, Ok(files[path]))
    else
      match ParseInt(NumberPart(path))
      case None => Loaded(files, path, Err(NotANumber(NumberPart(path))))
      case Some(n) =>
        if DefaultLevel !in files then Loaded(files, path, Err(ReadFailed(DefaultLevel)))
        else
          var files' := files[CopyName(n) := files[DefaultLevel]];
          Loaded(files', path, if path in files' then Ok(files'[path]) else Err(ReadFailed(path)))
  }

  /**
   * Loading an existing level reads it and writes nothing. Loading a missing
   * one first copies the default level to the numbered file its name
   * spells, even over an existing level, and then succeeds only if that copy
   * is the file asked for.
   */
  lemma LoadCases(files: Files, name: string)
    ensures var l := LoadLevel(files, name); var path := LevelPath(name);
      && l.current == path
      && (path in files ==> l.files == files && l.data == Ok(files[path]))
      && (path !in files && ParseInt(NumberPart(path)).None? ==> l.files == files && l.data.Err?)
      && (path !in files && DefaultLevel !in files ==> l.files == files && l.data.Err?)
      && (path !in files && DefaultLevel in files && ParseInt(NumberPart(path)).Some? ==>
            var n := ParseInt(NumberPart(path)).value;
            && l.files == files[CopyName(n) := files[DefaultLevel]]
            && (l.data.Ok? <==> path == CopyName(n))
            && (l.data.Ok? ==> l.data.value == files[DefaultLevel]))
  {
  }

  /** The name "world_data" and a number spells the path the default level is copied to. */
  lemma CopyNameOfName(n: int)
    ensures CopyName(n) == LevelPath("world_data" + IntToString(n))
  {
    var x := IntToString(n);
    assert "lvl/" + "world_data" == "lvl/world_data";
    assert "lvl/" + ("world_data" + x) == ("lvl/" + "world_data") + x;
  }

  /** The number read back from the name "world_data" and a number is that number. */
  lemma NumberOfNumberedName(n: int)
    ensures ParseInt(NumberPart(LevelPath("world_data" + IntToString(n)))) == Some(n)
  {
    var name := "world_data" + IntToString(n);
    NumberOfName(name);
    assert name[10..] == IntToString(n);
    ParseIntRoundTrip(n);
  }

  /** A new level typed as "world_data" and a number starts as a copy of the default level. */
  lemma NewLevelCopiesDefault(files: Files, n: int)
    requires LevelPath("world_data" + IntToString(n)) !in files && DefaultLevel in files
    ensures var path := LevelPath("world_data" + IntToString(n));
      LoadLevel(files, "world_data" + IntToString(n)) == Loaded(files[path := files[DefaultLevel]], path, Ok(files[DefaultLevel]))
  {
    CopyNameOfName(n);
    NumberOfNumberedName(n);
    LoadCases(files, "world_data" + IntToString(n));
  }

  /**
   * A name with a leading zero, "world_data07", copies the default level
   * over level 7 and then fails to read the file it asked for.
   */
  lemma LeadingZeroClobbers(files: Files)
    requires DefaultLevel in files && "lvl/world_data07.pkl" !in files
    ensures var l := LoadLevel(files, "world_data07");
      l.data == Err(ReadFailed("lvl/world_data07.pkl")) && l.files == files["lvl/world_data7.pkl" := files[DefaultLevel]]
  {
    var name := "world_data07";
    NumberOfName(name);
    assert name[10..] == "07";
    assert DigitsValue("07") == 7 by {
      assert "07"[..1] == "0";
      assert "0"[..0] == "";
    }
    assert ParseInt(NumberPart(LevelPath(name))) == Some(7);
    assert IntToString(7) == "7";
    assert LevelPath(name) == "lvl/world_data07.pkl";
    assert CopyName(7) == "lvl/world_data7.pkl";
    LoadCases(files, name);
  }

  /** Saving a level and loading it by the same name reads back what was saved. */
  lemma SaveThenLoad(files: Files, name: string, g: Grid)
    ensures var saved := files[LevelPath(name) := g];
      LoadLevel(saved, name) == Loaded(saved, LevelPath(name), Ok(g))
  {
  }

  // ---------------------------------------------------------------------------
  // The editor's globals

  /**
   * The editor's level state: the directory, the current level's path, and
   * the World whose `data` is the loaded grid (the global `world_data` is the
   * same list object, so the model keeps it once, in the World).
   */
  class Editor {
    var files: Files
    var currentLevel: string
    var changesMade: bool
    const world: World

    /** Start-up: the default level is read and edited. */
    constructor (files: Files)
      requires DefaultLevel in files
      ensures this.files == files && currentLevel == DefaultLevel && changesMade
      ensures fresh(world) && world.data == files[DefaultLevel]
    {
      this.files := files;
      currentLevel := DefaultLevel;
      changesMade := true;
      world := new World(files[DefaultLevel]);
    }

    /** The load button's handler. */
    method Load(name: string) returns (err: Option<LoadError>)
      modifies this, world`data
      ensures var l := LoadLevel(old(files), name);
        && files == l.files && currentLevel == l.current
        && (l.data.Ok? ==> err == None && world.data == l.data.value && changesMade)
        && (l.data.Err? ==> err == Some(l.data.error))
    {
      currentLevel := LevelPath(name);
      if currentLevel !in files {
        var numText := NumberPart(currentLevel);
        var num := ParseInt(numText);
        if num.None? {
          return Some(NotANumber(numText));
        }
        if DefaultLevel !in files {
          return Some(ReadFailed(DefaultLevel));
        }
        var levelToSave := CopyName(num.value);
        files := files[levelToSave := files[DefaultLevel]];
      }
      if currentLevel !in files {
        return Some(ReadFailed(currentLevel));
      }
      world.UpdateData(files[currentLevel]);
      changesMade := true;
      err := None;
    }

    /** The save button's handler: the edited grid is written to the current level's file. */
    method Save()
      modifies this`files
      ensures files == old(files)[currentLevel := world.data]
    {
      files := files[currentLevel := world.data];
    }
  }

  /**
   * The editor's start-up: `load_data(default_level)` raises IOError when the
   * default level is missing; otherwise the editor opens on it.
   */
  method StartEditor(files: Files) returns (ed: Editor?, err: Option<LoadError>)
    ensures err.Some? <==> DefaultLevel !in files
    ensures err.Some? ==> ed == null && err == Some(ReadFailed(DefaultLevel))
    ensures err.None? ==>
      && ed != null && fresh(ed) && fresh(ed.world)
      && ed.files == files && ed.currentLevel == DefaultLevel && ed.changesMade
      && ed.world.data == files[DefaultLevel]
  {
    if DefaultLevel !in files {
      return null, Some(ReadFailed(DefaultLevel));
    }
    ed := new Editor(files);
    err := None;
  }
}
