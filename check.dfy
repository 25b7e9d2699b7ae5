/**
 * The naming and vocabulary validators of check.go: four identifier formats
 * (written by hand over ASCII character classes, each proved equal to the
 * regular expression it replaces), the task-name normaliser, and the
 * closed-set checks for asset types, shot types and tasks.
 */
module Check {
  import opened Wrappers
  import opened Text

  // ---------------------------------------------------------------------
  // Identifier formats
  // ---------------------------------------------------------------------

  predicate IsX(c: char) { c == 'x' || c == 'X' }

  /** The number of decimal digits at the end of `s`. */
  function TrailingDigits(s: string): (n: nat)
    ensures n <= |s|
    ensures forall i :: |s| - n <= i < |s| ==> IsDigit(s[i])
    ensures n < |s| ==> !IsDigit(s[|s| - 1 - n])
    decreases |s|
  {
    if s == [] || !IsDigit(s[|s| - 1]) then 0 else TrailingDigits(s[..|s| - 1]) + 1
  }

  /**
   * regexpImageSize: the string ends with 2 to 5 digits after an 'x' or 'X',
   * and at least two digits stand right before that letter.
   */
  predicate ImageSize(s: string)
  {
    var after := TrailingDigits(s);
    2 <= after <= 5 && after < |s| && IsX(s[|s| - 1 - after]) &&
    TrailingDigits(s[..|s| - 1 - after]) >= 2
  }

  /** Every character of `s[lo..hi]` is a decimal digit. */
  ghost predicate DigitsBetween(s: string, lo: int, hi: int)
    requires 0 <= lo <= hi <= |s|
  {
    forall j :: lo <= j < hi ==> IsDigit(s[j])
  }

  /** The meaning of `\d{2,5}[xX]\d{2,5}$`: some suffix of `s` matches the whole pattern. */
  ghost predicate ImageSizePattern(s: string)
  {
    exists i, m :: 0 <= i < m < |s| && 2 <= m - i <= 5 && DigitsBetween(s, i, m) &&
      IsX(s[m]) && 2 <= |s| - (m + 1) <= 5 && DigitsBetween(s, m + 1, |s|)
  }

  lemma ImageSizeHasPattern(s: string)
    requires ImageSize(s)
    ensures ImageSizePattern(s)
  {
    var after := TrailingDigits(s);
    var m := |s| - 1 - after;
    var prefix := s[..m];
    var before := TrailingDigits(prefix);
    assert IsDigit(prefix[m - 1]) && IsDigit(prefix[m - 2]);
    assert DigitsBetween(s, m - 2, m);
    assert DigitsBetween(s, m + 1, |s|);
  }

  lemma PatternIsImageSize(s: string)
    requires ImageSizePattern(s)
    ensures ImageSize(s)
  {
    var i, m :| 0 <= i < m < |s| && 2 <= m - i <= 5 && DigitsBetween(s, i, m) &&
      IsX(s[m]) && 2 <= |s| - (m + 1) <= 5 && DigitsBetween(s, m + 1, |s|);
    var after := TrailingDigits(s);
    assert after == |s| - 1 - m;
    var prefix := s[..m];
    var before := TrailingDigits(prefix);
  }

  lemma ImageSizeMatchesPattern(s: string)
    ensures ImageSize(s) <==> ImageSizePattern(s)
  {
    if ImageSize(s) {
      ImageSizeHasPattern(s);
    }
    if ImageSizePattern(s) {
      PatternIsImageSize(s);
    }
  }

  /** regexpShotname: two alphanumeric groups joined by the only '_' of the string. */
  predicate ShotName(s: string)
  {
    var groups := Split(s, '_');
    |groups| == 2 && AlnumRun(groups[0]) && AlnumRun(groups[1])
  }

  /** The meaning of `^[a-zA-Z0-9]+_[a-zA-Z0-9]+$`. */
  ghost predicate ShotNamePattern(s: string)
  {
    exists k :: 0 <= k < |s| && s[k] == '_' && AlnumRun(s[..k]) && AlnumRun(s[k + 1..])
  }

  lemma NoUnderscore(p: string)
    requires forall i :: 0 <= i < |p| ==> IsAlnum(p[i])
    ensures '_' !in p
  {
  }

  lemma ShotNameHasPattern(s: string)
    requires ShotName(s)
    ensures ShotNamePattern(s)
  {
    var groups := Split(s, '_');
    JoinSplit(s, '_');
    var k := |groups[0]|;
    assert s == groups[0] + ['_'] + groups[1];
    assert s[..k] == groups[0] && s[k] == '_' && s[k + 1..] == groups[1];
  }

  lemma ShotNameAt(s: string, k: int)
    requires 0 <= k < |s| && s[k] == '_' && AlnumRun(s[..k]) && AlnumRun(s[k + 1..])
    ensures ShotName(s)
  {
    var p0, p1 := s[..k], s[k + 1..];
    NoUnderscore(p0);
    NoUnderscore(p1);
    CutAt(s, k);
    SplitNoSeparator(p1, '_');
    SplitAfterPiece(p0, p1, '_');
  }

  lemma ShotNameMatchesPattern(s: string)
    ensures ShotName(s) <==> ShotNamePattern(s)
  {
    if ShotName(s) {
      ShotNameHasPattern(s);
    }
    if ShotNamePattern(s) {
      var k :| 0 <= k < |s| && s[k] == '_' && AlnumRun(s[..k]) && AlnumRun(s[k + 1..]);
      ShotNameAt(s, k);
    }
  }

  /** regexpAssetname: one non-empty alphanumeric run. */
  predicate AssetName(s: string)
  {
    AlnumRun(s)
  }

  /** A shot name always holds a '_', which an asset name never does. */
  lemma ShotNameIsNotAssetName(s: string)
    ensures !(ShotName(s) && AssetName(s))
  {
    if AssetName(s) {
      NoUnderscore(s);
      SplitSingle(s, '_');
    }
  }

  /** regexpRollMedia: digits, upper-case/digits, digits, upper-case/digits, joined by '_'. */
  predicate RollMedia(s: string)
  {
    var groups := Split(s, '_');
    |groups| == 4 && DigitRun(groups[0]) && UpperAlnumRun(groups[1]) &&
    DigitRun(groups[2]) && UpperAlnumRun(groups[3])
  }

  /** The meaning of `^\d+_[A-Z0-9]+_\d+_[A-Z0-9]+$`. */
  ghost predicate RollMediaPattern(s: string)
  {
    exists i, j, k :: 0 <= i < j < k < |s| && s[i] == '_' && s[j] == '_' && s[k] == '_' &&
      DigitRun(s[..i]) && UpperAlnumRun(s[i + 1..j]) &&
      DigitRun(s[j + 1..k]) && UpperAlnumRun(s[k + 1..])
  }

  lemma RollMediaHasPattern(s: string)
    requires RollMedia(s)
    ensures RollMediaPattern(s)
  {
    var g := Split(s, '_');
    JoinSplit(s, '_');
    JoinFour(g, '_');
    assert s == g[0] + ['_'] + (g[1] + ['_'] + (g[2] + ['_'] + g[3]));
    var i := |g[0]|;
    var j := i + 1 + |g[1]|;
    var k := j + 1 + |g[2]|;
    assert s[..i] == g[0] && s[i] == '_';
    assert s[i + 1..j] == g[1] && s[j] == '_';
    assert s[j + 1..k] == g[2] && s[k] == '_';
    assert s[k + 1..] == g[3];
  }

  lemma JoinFour(parts: seq<string>, sep: char)
    requires |parts| == 4
    ensures Join(parts, sep) == parts[0] + [sep] + (parts[1] + [sep] + (parts[2] + [sep] + parts[3]))
  {
    assert Join(parts[3..], sep) == parts[3];
    assert Join(parts[2..], sep) == parts[2] + [sep] + Join(parts[3..], sep);
    assert Join(parts[1..], sep) == parts[1] + [sep] + Join(parts[2..], sep);
  }

  /** Cutting `s` around its `k`-th character. */
  lemma CutAt(s: string, k: int)
    requires 0 <= k < |s|
    ensures s == s[..k] + [s[k]] + s[k + 1..]
  {
  }

  lemma PatternIsRollMedia(s: string)
    requires RollMediaPattern(s)
    ensures RollMedia(s)
  {
    var i, j, k :| 0 <= i < j < k < |s| && s[i] == '_' && s[j] == '_' && s[k] == '_' &&
      DigitRun(s[..i]) && UpperAlnumRun(s[i + 1..j]) &&
      DigitRun(s[j + 1..k]) && UpperAlnumRun(s[k + 1..]);
    RollMediaAt(s, i, j, k);
  }

  lemma RollMediaAt(s: string, i: int, j: int, k: int)
    requires 0 <= i < j < k < |s| && s[i] == '_' && s[j] == '_' && s[k] == '_'
    requires DigitRun(s[..i]) && UpperAlnumRun(s[i + 1..j])
    requires DigitRun(s[j + 1..k]) && UpperAlnumRun(s[k + 1..])
    ensures RollMedia(s)
  {
    var p0, p1, p2, p3 := s[..i], s[i + 1..j], s[j + 1..k], s[k + 1..];
    NoUnderscore(p0);
    NoUnderscore(p1);
    NoUnderscore(p2);
    NoUnderscore(p3);
    CutThree(s, i, j, k);
    SplitFourPieces(p0, p1, p2, p3);
  }

  /** A string cut around three of its characters, all '_'. */
  lemma CutThree(s: string, i: int, j: int, k: int)
    requires 0 <= i < j < k < |s| && s[i] == '_' && s[j] == '_' && s[k] == '_'
    ensures s == s[..i] + ['_'] + (s[i + 1..j] + ['_'] + (s[j + 1..k] + ['_'] + s[k + 1..]))
  {
    var t1 := s[i + 1..];
    var t2 := s[j + 1..];
    CutAt(t2, k - j - 1);
    assert t2[..k - j - 1] == s[j + 1..k] && t2[k - j..] == s[k + 1..];
    CutAt(t1, j - i - 1);
    assert t1[..j - i - 1] == s[i + 1..j] && t1[j - i..] == t2;
    CutAt(s, i);
  }

  /** Four '_'-free pieces joined by '_' split back into those pieces. */
  lemma SplitFourPieces(p0: string, p1: string, p2: string, p3: string)
    requires '_' !in p0 && '_' !in p1 && '_' !in p2 && '_' !in p3
    ensures Split(p0 + ['_'] + (p1 + ['_'] + (p2 + ['_'] + p3)), '_') == [p0, p1, p2, p3]
  {
    SplitNoSeparator(p3, '_');
    SplitAfterPiece(p2, p3, '_');
    SplitAfterPiece(p1, p2 + ['_'] + p3, '_');
    SplitAfterPiece(p0, p1 + ['_'] + (p2 + ['_'] + p3), '_');
  }

  lemma RollMediaMatchesPattern(s: string)
    ensures RollMedia(s) <==> RollMediaPattern(s)
  {
    if RollMedia(s) {
      RollMediaHasPattern(s);
    }
    if RollMediaPattern(s) {
      PatternIsRollMedia(s);
    }
  }

  /** The sample value named beside regexpImageSize, with a prefix and with an upper-case 'X'. */
  lemma ImageSizeExamples()
    ensures ImageSize("2048x1080") && ImageSize("render_2048X1080")
  {
    var a := "2048x1080";
    assert DigitsBetween(a, 0, 4) && IsX(a[4]) && DigitsBetween(a, 5, 9);
    PatternIsImageSize(a);
    var b := "render_2048X1080";
    assert DigitsBetween(b, 7, 11) && IsX(b[11]) && DigitsBetween(b, 12, 16);
    PatternIsImageSize(b);
  }

  /** Near misses: a separator other than 'x', and six digits after the 'x'. */
  lemma ImageSizeCounterexamples()
    ensures !ImageSize("2048-1080") && !ImageSize("2048x123456")
  {
    var a := "2048-1080";
    var n := TrailingDigits(a);
    assert n == 4 by {
      assert !IsDigit(a[4]);
      assert IsDigit(a[5]) && IsDigit(a[6]) && IsDigit(a[7]) && IsDigit(a[8]);
    }
    var b := "2048x123456";
    assert TrailingDigits(b) >= 6 by {
      assert IsDigit(b[5]) && IsDigit(b[6]) && IsDigit(b[7]) && IsDigit(b[8]) && IsDigit(b[9]) && IsDigit(b[10]);
    }
  }

  /** The sample value named beside regexpShotname. */
  lemma ShotNameExample()
    ensures ShotName("SS_0010")
  {
    var s := "SS_0010";
    assert s[..2] == "SS" && s[3..] == "0010";
    assert ShotNamePattern(s);
    ShotNameMatchesPattern(s);
  }

  /** A third group is refused: "SS_0010_extra" splits into three pieces. */
  lemma ShotNameCounterexample()
    ensures !ShotName("SS_0010_extra")
  {
    var parts := ["SS", "0010", "extra"];
    assert Join(parts, '_') == "SS_0010_extra" by {
      assert Join(parts[1..], '_') == "0010" + ['_'] + Join(parts[2..], '_');
    }
    SplitJoin(parts, '_');
  }

  /** Four groups of the right classes joined by '_' make a roll-media code. */
  lemma RollMediaOfGroups(p0: string, p1: string, p2: string, p3: string)
    requires DigitRun(p0) && UpperAlnumRun(p1) && DigitRun(p2) && UpperAlnumRun(p3)
    ensures RollMedia(p0 + ['_'] + (p1 + ['_'] + (p2 + ['_'] + p3)))
  {
    NoUnderscore(p0);
    NoUnderscore(p1);
    NoUnderscore(p2);
    NoUnderscore(p3);
    SplitFourPieces(p0, p1, p2, p3);
  }

  /** The sample value named beside regexpRollMedia. */
  lemma RollMediaExample()
    ensures RollMedia("00_A03C001_180113_A001")
  {
    SampleGroups();
    RollMediaOfGroups("00", "A03C001", "180113", "A001");
  }

  /** The sample roll-media code is its four groups joined by '_'. */
  lemma SampleGroups()
    ensures "00" + ['_'] + ("A03C001" + ['_'] + ("180113" + ['_'] + "A001")) == "00_A03C001_180113_A001"
  {
  }

  /** A roll-media code holds only digits, upper-case letters and '_': no lower-case letter. */
  lemma RollMediaAlphabet(s: string)
    requires RollMedia(s)
    ensures forall n :: 0 <= n < |s| ==> IsUpperAlnum(s[n]) || s[n] == '_'
  {
    RollMediaHasPattern(s);
    var i, j, k :| 0 <= i < j < k < |s| && s[i] == '_' && s[j] == '_' && s[k] == '_' &&
      DigitRun(s[..i]) && UpperAlnumRun(s[i + 1..j]) &&
      DigitRun(s[j + 1..k]) && UpperAlnumRun(s[k + 1..]);
    PiecesAlphabet(s, i, j, k);
  }

  lemma PiecesAlphabet(s: string, i: int, j: int, k: int)
    requires 0 <= i < j < k < |s| && s[i] == '_' && s[j] == '_' && s[k] == '_'
    requires DigitRun(s[..i]) && UpperAlnumRun(s[i + 1..j])
    requires DigitRun(s[j + 1..k]) && UpperAlnumRun(s[k + 1..])
    ensures forall n :: 0 <= n < |s| ==> IsUpperAlnum(s[n]) || s[n] == '_'
  {
    forall n | 0 <= n < |s|
      ensures IsUpperAlnum(s[n]) || s[n] == '_'
    {
      if n < i {
        assert s[..i][n] == s[n];
      } else if i < n < j {
        assert s[i + 1..j][n - i - 1] == s[n];
      } else if j < n < k {
        assert s[j + 1..k][n - j - 1] == s[n];
      } else if k < n {
        assert s[k + 1..][n - k - 1] == s[n];
      }
    }
  }

  // ---------------------------------------------------------------------
  // Vocabulary
  // ---------------------------------------------------------------------

  /** str2bool: only the two spellings "true" and "True" mean true. */
  function Str2Bool(str: string): (r: bool)
    ensures r <==> str in {"true", "True"}
  {
    str == "true" || str == "True"
  }

  const AssetTypes: set<string> := {"char", "comp", "env", "fx", "matte", "plant", "prop", "vehicle", "concept"}
  const AssetTypeMessage := "이름을 에셋타입으로 사용할 수 없습니다"

  /** validAssettype: case-sensitive membership; the error message starts with the input. */
  function ValidAssettype(assettype: string): (r: Outcome<string>)
    ensures r.Pass? <==> assettype in AssetTypes
    ensures r.Fail? ==> r.error == assettype + AssetTypeMessage
  {
    if assettype == "char" || assettype == "comp" || assettype == "env" || assettype == "fx" ||
       assettype == "matte" || assettype == "plant" || assettype == "prop" ||
       assettype == "vehicle" || assettype == "concept"
    then Pass
    else Fail(assettype + AssetTypeMessage)
  }

  const ShotTypes: set<string> := {"2d", "3d"}
  const ShotTypeMessage := "이름을 샷타입으로 사용할 수 없습니다"

  /** validShottype: only "2d" and "3d", case-sensitive; the error message starts with the input. */
  function ValidShottype(shottype: string): (r: Outcome<string>)
    ensures r.Pass? <==> shottype in ShotTypes
    ensures r.Fail? ==> r.error == shottype + ShotTypeMessage
  {
    if shottype == "2d" || shottype == "3d" then Pass else Fail(shottype + ShotTypeMessage)
  }

  /** The legacy task aliases, keyed by their lower-case spelling. */
  const TaskAliases: map<string, string> := map["fursim" := "fur", "lookdev" := "light", "look" := "light", "rig" := "sim"]

  /** renameTask: lower-case the name, then map the legacy aliases to their current task. */
  function RenameTask(task: string): (r: string)
    ensures forall i :: 0 <= i < |r| ==> !IsUpper(r[i])
  {
    var lower := Lower(task);
    if lower == "fursim" then "fur"
    else if lower == "lookdev" || lower == "look" then "light"
    else if lower == "rig" then "sim"
    else lower
  }

  /** The switch of renameTask is the alias table applied after lower-casing. */
  lemma RenameTaskByTable(task: string)
    ensures RenameTask(task) ==
      if Lower(task) in TaskAliases then TaskAliases[Lower(task)] else Lower(task)
  {
  }

  lemma RenameTaskIgnoresCase(task: string)
    ensures RenameTask(Lower(task)) == RenameTask(task)
  {
    LowerIdempotent(task);
  }

  lemma RenameTaskIdempotent(task: string)
    ensures RenameTask(RenameTask(task)) == RenameTask(task)
  {
    var r := RenameTask(task);
    assert Lower(r) == r;
    assert Lower("fur") == "fur" && Lower("light") == "light" && Lower("sim") == "sim";
  }

  const TaskMessage := "이름을 task 이름으로 사용할 수 없습니다"

  /**
   * validTask: the input is accepted when some listed task names the same
   * task once both are normalised; the error message starts with the input
   * as given.
   */
  function ValidTask(tasks: seq<string>, inputTask: string): (r: Outcome<string>)
    ensures r.Pass? <==> exists t :: t in tasks && RenameTask(t) == RenameTask(inputTask)
    ensures r.Fail? ==> r.error == inputTask + TaskMessage
    decreases |tasks|
  {
    if tasks == [] then Fail(inputTask + TaskMessage)
    else if RenameTask(tasks[0]) == RenameTask(inputTask) then Pass
    else ValidTask(tasks[1..], inputTask)
  }

  /** Any spelling that normalises like a listed task is accepted, e.g. "FurSim" when "fur" is listed. */
  lemma ValidTaskAcceptsAliases(tasks: seq<string>, t: string, inputTask: string)
    requires t in tasks
    requires RenameTask(inputTask) == RenameTask(t)
    ensures ValidTask(tasks, inputTask) == Pass
  {
  }
}
