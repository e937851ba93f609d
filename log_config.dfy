/** The pure parts of the logging configuration: the level-to-format table
    of the console formatter, the ANSI colour stripper of the file formatter,
    and the switch that turns file logging on. */
module LogConfig {

  import opened PyValues

  const Esc: char := '\U{1B}'
  const Blue: string := [Esc] + "[34m"
  const BoldRed: string := [Esc] + "[31;1m"
  const Reset: string := [Esc] + "[0m"
  const Prefix: string := "\U{1F47E} ObservabilityOps: "
  const Message: string := "%(message)s"

  // The numeric levels of Python's logging module.
  const Debug: int := 10
  const Info: int := 20
  const Warning: int := 30
  const Error: int := 40
  const Critical: int := 50

  /** `ObsOpsLogFormatter.FORMATS`: one format template per standard level. */
  const Formats: map<int, string> := map[
    Debug := "(DEBUG) " + Prefix + Message,
    Info := Prefix + Message,
    Warning := Prefix + Message,
    Error := BoldRed + Prefix + Message + Reset,
    Critical := BoldRed + Prefix + Message + Reset
  ]

  /** The template `ObsOpsLogFormatter.format` picks for a record's level:
      the level's own entry, or the INFO template for any other level. */
  function FormatFor(levelno: int): (f: string)
    ensures levelno == Debug ==> f == "(DEBUG) " + Prefix + Message
    ensures levelno == Info || levelno == Warning ==> f == Prefix + Message
    ensures levelno == Error || levelno == Critical ==> f == BoldRed + Prefix + Message + Reset
    ensures levelno !in {Debug, Info, Warning, Error, Critical} ==> f == Prefix + Message
  {
    if levelno in Formats then Formats[levelno] else Formats[Info]
  }

  /** True when `s` holds no escape character. */
  predicate NoEsc(s: string)
  {
    forall i :: 0 <= i < |s| ==> s[i] != Esc
  }

  predicate IsParamChar(c: char)
  {
    ('0' <= c <= '9') || c == ';'
  }

  /** Length of the longest prefix of `s` made of digits and semicolons. */
  function ParamRun(s: string): (k: nat)
    ensures k <= |s|
    ensures forall i :: 0 <= i < k ==> IsParamChar(s[i])
    ensures k < |s| ==> !IsParamChar(s[k])
  {
    if s != [] && IsParamChar(s[0]) then 1 + ParamRun(s[1..]) else 0
  }

  /** The length of the match of `ESC '[' [0-9;]* 'm'` at the start of `s`,
      if there is one. The run of parameters never contains 'm', so the
      greedy star leaves exactly one way to finish the match. */
  function MatchAt(s: string): (n: Option<nat>)
    ensures n.Some? ==> 3 <= n.value <= |s|
    ensures n.Some? ==>
      && s[0] == Esc && s[1] == '[' && s[n.value - 1] == 'm'
      && forall i :: 2 <= i < n.value - 1 ==> IsParamChar(s[i])
  {
    if 2 <= |s| && s[0] == Esc && s[1] == '[' then
      var k := ParamRun(s[2..]);
      if 2 + k < |s| && s[2 + k] == 'm' then Some(3 + k) else None
    else None
  }

  /** `ANSI_ESCAPE_PATTERN.sub("", s)`: scanning left to right, every
      non-overlapping colour sequence is removed and every other character
      is kept in order. */
  function StripAnsi(s: string): (r: string)
    ensures |r| <= |s|
    decreases |s|
  {
    if s == [] then []
    else match MatchAt(s)
      case Some(n) => StripAnsi(s[n..])
      case None => [s[0]] + StripAnsi(s[1..])
  }

  /** A colour sequence with parameters `params`, as the pattern matches it. */
  function ColourSequence(params: string): string
  {
    [Esc] + "[" + params + "m"
  }

  /** Text without escape characters is left as it is. */
  lemma {:induction false} StripAnsiNoEsc(s: string)
    requires NoEsc(s)
    ensures StripAnsi(s) == s
    decreases |s|
  {
    if s != [] {
      assert MatchAt(s).None?;
      StripAnsiNoEsc(s[1..]);
    }
  }

  /** Text without escape characters in front of the rest passes through,
      and the rest is stripped on its own. */
  lemma {:induction false} StripAnsiNoEscPrefix(a: string, b: string)
    requires NoEsc(a)
    ensures StripAnsi(a + b) == a + StripAnsi(b)
    decreases |a|
  {
    if a == [] {
      assert a + b == b;
    } else {
      var ab := a + b;
      assert ab[0] == a[0] && ab[1..] == a[1..] + b;
      assert MatchAt(ab).None?;
      StripAnsiPlain(ab);
      var rest := StripAnsi(a[1..] + b);
      assert NoEsc(a[1..]);
      StripAnsiNoEscPrefix(a[1..], b);
      assert rest == a[1..] + StripAnsi(b);
      ConsAppend(a, StripAnsi(b));
    }
  }

  lemma ConsAppend(a: string, x: string)
    requires a != []
    ensures [a[0]] + (a[1..] + x) == a + x
  {
    assert a == [a[0]] + a[1..];
  }

  /** A character with no colour sequence starting at it is kept, whether
      or not it is an ESC. */
  lemma StripAnsiPlain(s: string)
    requires s != [] && MatchAt(s).None?
    ensures StripAnsi(s) == [s[0]] + StripAnsi(s[1..])
  {
  }

  /** Every colour sequence at the front of a text is matched, whole: so
      when nothing matches, the text does not start with one. */
  lemma MatchAtSequence(params: string, b: string)
    requires forall i :: 0 <= i < |params| ==> IsParamChar(params[i])
    ensures MatchAt(ColourSequence(params) + b) == Some(3 + |params|)
  {
    var s := ColourSequence(params) + b;
    assert s[2..] == params + ("m" + b);
    ParamRunOver(params, "m" + b);
    assert s[2 + |params|] == 'm';
  }

  /** When nothing matches at the front, the text does not start with a
      colour sequence. */
  lemma MatchAtNoneNoSequence(s: string, params: string, b: string)
    requires MatchAt(s).None?
    requires forall i :: 0 <= i < |params| ==> IsParamChar(params[i])
    ensures s != ColourSequence(params) + b
  {
    MatchAtSequence(params, b);
  }

  /** A colour sequence at the front is removed whole. */
  lemma StripAnsiSequencePrefix(params: string, b: string)
    requires forall i :: 0 <= i < |params| ==> IsParamChar(params[i])
    ensures StripAnsi(ColourSequence(params) + b) == StripAnsi(b)
  {
    var s := ColourSequence(params) + b;
    MatchAtSequence(params, b);
    assert s[3 + |params|..] == b;
  }

  /** An ESC that starts no colour sequence is kept with the text after it:
      an unterminated sequence is left as it is. */
  lemma StripAnsiStrayEsc()
    ensures StripAnsi([Esc] + "[31x") == [Esc] + "[31x"
  {
    var s := [Esc] + "[31x";
    assert s[2..] == "31x";
    assert ParamRun("x") == 0;
    assert ParamRun("1x") == 1;
    assert ParamRun(s[2..]) == 2;
    assert MatchAt(s).None?;
    StripAnsiPlain(s);
    StripAnsiNoEsc(s[1..]);
  }

  lemma {:induction false} ParamRunOver(params: string, rest: string)
    requires forall i :: 0 <= i < |params| ==> IsParamChar(params[i])
    requires rest != [] && !IsParamChar(rest[0])
    ensures ParamRun(params + rest) == |params|
    decreases |params|
  {
    if params != [] {
      assert (params + rest)[1..] == params[1..] + rest;
      ParamRunOver(params[1..], rest);
    }
  }

  /** Text coloured bold red for the console comes out uncoloured. */
  lemma StripAnsiBoldRed(s: string)
    requires NoEsc(s)
    ensures StripAnsi(BoldRed + s + Reset) == s
  {
    assert BoldRed == ColourSequence("31;1");
    assert Reset == ColourSequence("0");
    assert BoldRed + s + Reset == ColourSequence("31;1") + (s + Reset);
    StripAnsiSequencePrefix("31;1", s + Reset);
    StripAnsiNoEscPrefix(s, Reset);
    StripAnsiSequencePrefix("0", []);
    assert Reset == Reset + [];
  }

  /** Stripping the ERROR and CRITICAL templates gives the INFO template. */
  lemma StripAnsiErrorFormat(levelno: int)
    requires levelno == Error || levelno == Critical
    ensures StripAnsi(FormatFor(levelno)) == FormatFor(Info)
  {
    assert NoEsc(Prefix + Message);
    assert BoldRed + Prefix + Message + Reset == BoldRed + (Prefix + Message) + Reset;
    StripAnsiBoldRed(Prefix + Message);
  }

  /** The stripper is not idempotent: removing an inner sequence can join
      the characters around it into a new one. */
  lemma StripAnsiNotIdempotent()
    ensures var s := [Esc] + "[" + ColourSequence("0") + "m";
            StripAnsi(s) == ColourSequence("") && StripAnsi(StripAnsi(s)) == []
  {
    var s := [Esc] + "[" + ColourSequence("0") + "m";
    assert MatchAt(s).None?;
    assert s[1..] == "[" + ColourSequence("0") + "m";
    assert MatchAt(s[1..]).None?;
    assert s[2..] == ColourSequence("0") + "m";
    StripAnsiSequencePrefix("0", "m");
    assert StripAnsi("m") == "m";
    assert StripAnsi(s[1..]) == "[m";
    StripAnsiSequencePrefix("", []);
    assert ColourSequence("") == ColourSequence("") + [];
  }

  /** The part of a `logging.LogRecord` the formatters look at. */
  class LogRecord {
    var levelno: int
    var msg: string

    constructor (levelno: int, msg: string)
      ensures this.levelno == levelno && this.msg == msg
    {
      this.levelno := levelno;
      this.msg := msg;
    }
  }

  /** The first step of `ObsOpsLogFileFormatter.format`: the record's message
      is replaced, on the record itself, by its text with colours stripped. */
  method StripRecordMessage(record: LogRecord)
    modifies record`msg
    ensures record.msg == StripAnsi(old(record.msg))
  {
    record.msg := StripAnsi(record.msg);
  }

  /** ASCII lower-casing, as `str.lower()` does on ASCII text. */
  function Lower(s: string): (r: string)
    ensures |r| == |s|
    ensures forall i :: 0 <= i < |s| ==> r[i] == LowerChar(s[i])
  {
    if s == [] then [] else [LowerChar(s[0])] + Lower(s[1..])
  }

  function LowerChar(c: char): char
  {
    if 'A' <= c <= 'Z' then (c as int + 32) as char else c
  }

  /** `log_to_file`: the environment variable AGENTOPS_LOGGING_TO_FILE, read
      with "True" as its default, lower-cased and compared with "true". */
  function LogToFile(env: Option<string>): (on: bool)
    ensures env.None? ==> on
    ensures env.Some? ==> (on <==> |env.value| == 4 && Lower(env.value) == "true")
  {
    Lower(if env.Some? then env.value else "True") == "true"
  }

  /** File logging is on when the variable is unset, and otherwise exactly
      when its value spells "true" in any mix of ASCII upper and lower case. */
  lemma LogToFileCases(env: Option<string>)
    ensures env.None? ==> LogToFile(env)
    ensures env.Some? ==>
      (LogToFile(env) <==>
        && |env.value| == 4
        && env.value[0] in "tT" && env.value[1] in "rR"
        && env.value[2] in "uU" && env.value[3] in "eE")
  {
    if env.Some? {
      var v := env.value;
      var l := Lower(v);
      if l == "true" {
        assert LowerChar(v[0]) == 't' && LowerChar(v[1]) == 'r';
        assert LowerChar(v[2]) == 'u' && LowerChar(v[3]) == 'e';
      }
      if |v| == 4 && v[0] in "tT" && v[1] in "rR" && v[2] in "uU" && v[3] in "eE" {
        assert l == "true";
      }
    } else {
      assert Lower("True") == "true";
    }
  }
}
