/**
 * Configuration loading (server.js:15-55): a `key=value` text file folded,
 * line by line, over three built-in defaults.
 */
module Config {
  import opened Wrappers
  import opened Text

  /** The keys the server reads, with the placeholder values it starts from. */
  const VerifyTokenKey: string := "VERIFY_TOKEN"
  const AppSecretKey: string := "APP_SECRET"
  const WhatsAppTokenKey: string := "WHATSAPP_TOKEN"

  const Defaults: map<string, string> := map[
    VerifyTokenKey := "your_verify_token_here",
    AppSecretKey := "your_app_secret_here",
    WhatsAppTokenKey := "your_whatsapp_token_here"
  ]

  /** Every value is non-empty and has no surrounding whitespace. */
  predicate WellFormed(cfg: map<string, string>) {
    forall k :: k in cfg ==> cfg[k] != "" && IsTrimmed(cfg[k])
  }

  /** The three keys are present, with well-formed values. */
  predicate HasSettings(cfg: map<string, string>) {
    WellFormed(cfg) && VerifyTokenKey in cfg && AppSecretKey in cfg && WhatsAppTokenKey in cfg
  }

  /**
   * What one line of the file sets, if anything: the line is trimmed; blank
   * lines, `#` comments and lines without `=` set nothing; otherwise the key
   * is the trimmed text before the first `=` and the value the trimmed
   * re-join of everything after it, and an empty key or value sets nothing.
   */
  function ParseLine(raw: string): (r: Setting)
    ensures ValidSetting(r)
  {
    var line := Trim(raw);
    if line != "" && !StartsWith(line, "#") && '=' in line then
      var parts := Split(line, '=');
      assert parts[0] in parts;
      KeyValue(parts[0], Join(parts[1..], '='))
    else
      None
  }

  /** The setting of a key text and a value text: both trimmed, and nothing when either is then empty. */
  function KeyValue(keyText: string, valueText: string): (r: Setting)
    ensures '=' !in keyText ==> ValidSetting(r)
    ensures r.Some? <==> Trim(keyText) != "" && Trim(valueText) != ""
    ensures r.Some? ==> r.value == (Trim(keyText), Trim(valueText))
  {
    var key := Trim(keyText);
    var value := Trim(valueText);
    TrimKeepsAbsent(keyText, '=');
    if key != "" && value != "" then Some((key, value)) else None
  }

  /**
   * A trimmed line read as "split at the FIRST `=`": values may themselves
   * contain `=`, and only a blank line, a comment, a line without `=`, or an
   * empty key or value sets nothing.
   */
  function SplitSetting(line: string): (r: Setting)
    ensures ValidSetting(r)
    ensures r.Some? <==>
      && line != "" && line[0] != '#' && '=' in line
      && Trim(line[..IndexOf(line, '=')]) != "" && Trim(line[IndexOf(line, '=') + 1..]) != ""
  {
    if line == "" || line[0] == '#' || '=' !in line then None
    else
      var i := IndexOf(line, '=');
      var r := KeyValue(line[..i], line[i + 1..]);
      assert r.Some? <==> Trim(line[..i]) != "" && Trim(line[i + 1..]) != "";
      r
  }

  /** ParseLine, which splits at every `=` and re-joins the tail, is SplitSetting of the trimmed line. */
  lemma ParseLineAtFirstEquals(raw: string)
    ensures ParseLine(raw) == SplitSetting(Trim(raw))
  {
    var line := Trim(raw);
    if line != "" && line[0] == '#' {
      assert line[..1] == "#";
      assert StartsWith(line, "#");
    } else if line != "" && '=' in line {
      assert !StartsWith(line, "#");
      KeyValueAtFirstEquals(line);
    }
  }

  /** On a line that sets something, the split-and-rejoin halves are the halves around the first `=`. */
  lemma KeyValueAtFirstEquals(line: string)
    requires line != "" && line[0] != '#' && '=' in line
    ensures KeyValue(Split(line, '=')[0], Join(Split(line, '=')[1..], '=')) == SplitSetting(line)
  {
    SplitAtFirst(line, '=');
  }

  /**
   * Writing a setting back as `key=value` and parsing it gives the same
   * setting: the key ends at the first `=`, and the value keeps any `=` it
   * holds.
   */
  lemma ParseLineRoundTrip(key: string, value: string)
    requires ValidSetting(Some((key, value))) && key[0] != '#'
    ensures ParseLine(key + "=" + value) == Some((key, value))
  {
    SplitSettingRoundTrip(key, value);
    ParseLineAtFirstEquals(key + "=" + value);
  }

  lemma SplitSettingRoundTrip(key: string, value: string)
    requires ValidSetting(Some((key, value))) && key[0] != '#'
    ensures var line := key + "=" + value; Trim(line) == line && SplitSetting(line) == Some((key, value))
  {
    var line := key + "=" + value;
    assert IsTrimmed(line) by {
      assert line[0] == key[0] && line[|line| - 1] == value[|value| - 1];
    }
    IndexOfAfter(key, '=', value);
    assert line[|key|] == '=';
    var i := IndexOf(line, '=');
    assert line[..i] == key && line[i + 1..] == value;
  }

  /** A parsed line: `Some((key, value))` for a line that sets a key. */
  type Setting = Option<(string, string)>

  /** What a parsed line may set: a non-empty trimmed key without `=`, and a non-empty trimmed value. */
  predicate ValidSetting(p: Setting) {
    p.Some? ==> p.value.0 != "" && IsTrimmed(p.value.0) && '=' !in p.value.0 && p.value.1 != "" && IsTrimmed(p.value.1)
  }

  /** Each line read by `parse`, in order. */
  function MapLines(lines: seq<string>, parse: string -> Setting): (ps: seq<Setting>)
    ensures |ps| == |lines|
  {
    if lines == [] then [] else MapLines(lines[..|lines| - 1], parse) + [parse(lines[|lines| - 1])]
  }

  /** The i-th setting is what `parse` makes of the i-th line, and of nothing else. */
  lemma {:induction false} MapLinesEach(lines: seq<string>, parse: string -> Setting, i: nat)
    requires i < |lines|
    ensures MapLines(lines, parse)[i] == parse(lines[i])
    decreases |lines|
  {
    if i < |lines| - 1 {
      MapLinesEach(lines[..|lines| - 1], parse, i);
    }
  }

  /** The lines of the file, parsed one by one, in order. */
  function ParseLines(lines: seq<string>): (ps: seq<Setting>)
    ensures |ps| == |lines|
  {
    MapLines(lines, ParseLine)
  }

  /** Each line is parsed on its own: the i-th setting is what the i-th line says. */
  lemma ParseLinesEach(lines: seq<string>, i: nat)
    requires i < |lines|
    ensures ParseLines(lines)[i] == ParseLine(lines[i])
  {
    MapLinesEach(lines, ParseLine, i);
  }

  lemma ParseLinesValid(lines: seq<string>)
    ensures forall i :: 0 <= i < |lines| ==> ValidSetting(ParseLines(lines)[i])
  {
    forall i | 0 <= i < |lines|
      ensures ValidSetting(ParseLines(lines)[i])
    {
      ParseLinesEach(lines, i);
    }
  }

  function Apply(cfg: map<string, string>, p: Setting): map<string, string> {
    match p
    case Some((key, value)) => cfg[key := value]
    case None => cfg
  }

  /** The map after the parsed lines have been applied in order (the `forEach` of server.js:28-38). */
  function ApplyAll(cfg: map<string, string>, ps: seq<Setting>): (r: map<string, string>)
    ensures cfg.Keys <= r.Keys
    ensures |ps| > 0 && ps[|ps| - 1].Some? ==>
      ps[|ps| - 1].value.0 in r && r[ps[|ps| - 1].value.0] == ps[|ps| - 1].value.1
  {
    if ps == [] then cfg
    else Apply(ApplyAll(cfg, ps[..|ps| - 1]), ps[|ps| - 1])
  }

  /** The value the LAST line setting `key` gives it, if any line does. */
  function LastSetting(ps: seq<Setting>, key: string): Option<string> {
    if ps == [] then None
    else
      var p := ps[|ps| - 1];
      if p.Some? && p.value.0 == key then Some(p.value.1)
      else LastSetting(ps[..|ps| - 1], key)
  }

  /**
   * Later lines override earlier ones, and a key no line sets keeps the
   * value it had before (for the three defaults: the placeholder). Lines
   * that set nothing (blank, comment, no `=`, empty key or value) have no effect.
   */
  lemma {:induction false} ApplyAllLookup(cfg: map<string, string>, ps: seq<Setting>, key: string)
    ensures key in ApplyAll(cfg, ps) <==> key in cfg || LastSetting(ps, key).Some?
    ensures LastSetting(ps, key).Some? ==> ApplyAll(cfg, ps)[key] == LastSetting(ps, key).value
    ensures LastSetting(ps, key).None? && key in cfg ==> ApplyAll(cfg, ps)[key] == cfg[key]
    decreases |ps|
  {
    if ps != [] {
      ApplyAllLookup(cfg, ps[..|ps| - 1], key);
    }
  }

  /** Keys are only ever added, and values stay non-empty and trimmed. */
  lemma {:induction false} ApplyAllWellFormed(cfg: map<string, string>, ps: seq<Setting>)
    requires WellFormed(cfg)
    requires forall i :: 0 <= i < |ps| ==> ValidSetting(ps[i])
    ensures WellFormed(ApplyAll(cfg, ps))
    ensures cfg.Keys <= ApplyAll(cfg, ps).Keys
    decreases |ps|
  {
    if ps != [] {
      ApplyAllWellFormed(cfg, ps[..|ps| - 1]);
    }
  }

  /** The lines of the file: none when it is absent or unreadable, else its text split on newlines. */
  function FileLines(file: Option<string>): seq<string> {
    match file
    case None => []
    case Some(text) => Split(text, '\n')
  }

  /** Whatever the file says, the three settings stay present, non-empty and trimmed. */
  lemma LoadedHasSettings(lines: seq<string>)
    ensures HasSettings(ApplyAll(Defaults, ParseLines(lines)))
  {
    assert HasSettings(Defaults) by {
      forall k | k in Defaults ensures Defaults[k] != "" && IsTrimmed(Defaults[k]) {
      }
    }
    ParseLinesValid(lines);
    ApplyAllWellFormed(Defaults, ParseLines(lines));
  }

  /** Applying one more parsed line applies it to the map so far. */
  lemma ApplyAllSnoc(cfg: map<string, string>, ps: seq<Setting>, p: Setting)
    ensures ApplyAll(cfg, ps + [p]) == Apply(ApplyAll(cfg, ps), p)
  {
    assert (ps + [p])[..|ps|] == ps;
  }

  /** Parsing one more line of the file appends its setting. */
  lemma ParseLinesPrefix(lines: seq<string>, i: nat)
    requires i < |lines|
    ensures ParseLines(lines[..i + 1]) == ParseLines(lines[..i]) + [ParseLine(lines[i])]
  {
    assert lines[..i + 1][..i] == lines[..i];
  }

  /** Configuration of the lines of a file: the defaults, updated once per line, in order. */
  method LoadLines(lines: seq<string>) returns (config: map<string, string>)
    ensures config == ApplyAll(Defaults, ParseLines(lines))
  {
    config := Defaults;
    var i := 0;
    while i < |lines|
      invariant 0 <= i <= |lines|
      invariant config == ApplyAll(Defaults, ParseLines(lines[..i]))
    {
      ParseLinesPrefix(lines, i);
      ApplyAllSnoc(Defaults, ParseLines(lines[..i]), ParseLine(lines[i]));
      config := Apply(config, ParseLine(lines[i]));
      i := i + 1;
    }
    assert lines[..i] == lines;
  }

  /**
   * Loading the configuration file: an absent or unreadable file leaves the
   * defaults; otherwise its text is split on newlines and loaded line by line.
   */
  method Load(file: Option<string>) returns (config: map<string, string>)
    ensures config == ApplyAll(Defaults, ParseLines(FileLines(file)))
    ensures HasSettings(config)
  {
    config := LoadLines(FileLines(file));
    LoadedHasSettings(FileLines(file));
  }
}
