/** Host setup: the Caddyfile and the environment file written for a new
    installation, and the classification of yes/no answers at the setup
    prompt. The lines read from stdin are a parameter. */
module Setup {
  import opened Wrappers
  import opened Autoscale

  /** The answers collected for a setup run. */
  datatype SetupConfig = SetupConfig(
    token: string, hostname: string, autoConfigureTLS: bool,
    tlsEmail: string, basicAuthPassword: string, allowedHosts: string)

  predicate NoNewline(s: string) {
    forall i :: 0 <= i < |s| ==> s[i] != '\n'
  }

  /** Text made of the given lines, each ended by a newline. */
  function Unlines(lines: seq<string>): string
  {
    if |lines| == 0 then "" else lines[0] + "\n" + Unlines(lines[1..])
  }

  lemma NoNewlineCons(c: char, t: string)
    requires c != '\n' && NoNewline(t)
    ensures NoNewline([c] + t)
  {
    assert forall i :: 1 <= i < |t| + 1 ==> ([c] + t)[i] == t[i - 1];
  }

  /** Where the first line of `s` ends: its first newline, or its end. */
  function LineEnd(s: string): (k: nat)
    ensures k <= |s| && NoNewline(s[..k]) && (k < |s| ==> s[k] == '\n')
  {
    if |s| == 0 || s[0] == '\n' then 0
    else
      var k := LineEnd(s[1..]);
      assert s[..k + 1] == [s[0]] + s[1..][..k];
      NoNewlineCons(s[0], s[1..][..k]);
      k + 1
  }

  /** The lines of a text, each without its newline. */
  function Lines(s: string): seq<string>
    decreases |s|
  {
    if |s| == 0 then []
    else
      var k := LineEnd(s);
      [s[..k]] + (if k < |s| then Lines(s[k + 1..]) else [])
  }

  lemma {:induction false} LineEndOf(l: string, rest: string)
    requires NoNewline(l)
    ensures LineEnd(l + "\n" + rest) == |l|
  {
    if |l| > 0 {
      assert (l + "\n" + rest)[1..] == l[1..] + "\n" + rest;
      LineEndOf(l[1..], rest);
    }
  }

  /** Lines without newlines are read back from the text they make. */
  lemma {:induction false} LinesUnlines(lines: seq<string>)
    requires forall i :: 0 <= i < |lines| ==> NoNewline(lines[i])
    ensures Lines(Unlines(lines)) == lines
  {
    if |lines| > 0 {
      var l, rest := lines[0], Unlines(lines[1..]);
      var s := l + "\n" + rest;
      LineEndOf(l, rest);
      assert s[..|l|] == l;
      assert s[|l| + 1..] == rest;
      LinesUnlines(lines[1..]);
      assert lines == [l] + lines[1..];
    }
  }

  /** The fixed certificate line of a Caddyfile without automatic TLS. It is
      written in pieces because the verifier does not look inside a string
      literal this long, and the pieces let it see that the line holds no
      newline. */
  const CertLine := ("tls /etc/autoscale/" + "ssl/autoscale.crt") + (" /etc/autoscale/" + "ssl/autoscale.key")
  const ProxyLine := "proxy / autoscale:8888"

  /** The lines of the Caddyfile. */
  function CaddyLines(c: SetupConfig): (lines: seq<string>)
    ensures |lines| == 3 && lines[2] == ProxyLine
    ensures c.autoConfigureTLS ==> lines[0] == c.hostname && lines[1] == "tls " + c.tlsEmail
    ensures !c.autoConfigureTLS ==>
              lines[0] == c.hostname + ":443" &&
              lines[1] == CertLine
  {
    if c.autoConfigureTLS then [c.hostname, "tls " + c.tlsEmail, ProxyLine]
    else [c.hostname + ":443", CertLine, ProxyLine]
  }

  /** The lines of the environment file. */
  function EnvLines(c: SetupConfig): (lines: seq<string>)
    ensures |lines| == 8
    ensures lines[0] == "AUTOSCALE_ACCESS_TOKEN=" + c.token
    ensures lines[7] == "AUTOSCALE_WEB_PASSWORD=" + c.basicAuthPassword
  {
    ["AUTOSCALE_ACCESS_TOKEN=" + c.token,
     "AUTSCALE_USE_MEMORY_RESOURCES=0",
     "AUTSCALE_REGISTER_DEFAULT_METRICS=1",
     "AUTSCALE_REGISTER_OFFLINE_METRICS=0",
     "AUTSCALE_HTTP_ADDR=:8888",
     "AUTSCALE_ENV=production",
     "AUTOSCALE_HTTP_ADDR=:8888",
     "AUTOSCALE_WEB_PASSWORD=" + c.basicAuthPassword]
  }

  lemma {:induction false} UnlinesSnoc(lines: seq<string>, line: string)
    ensures Unlines(lines + [line]) == Unlines(lines) + line + "\n"
  {
    if |lines| > 0 {
      assert (lines + [line])[1..] == lines[1..] + [line];
      UnlinesSnoc(lines[1..], line);
    }
  }

  /** A text buffer written one line at a time. */
  class Buffer {
    var text: string
    /** The lines written so far. */
    ghost var lines: seq<string>

    ghost predicate Valid()
      reads this
    {
      text == Unlines(lines)
    }

    constructor ()
      ensures Valid() && lines == []
    {
      text := "";
      lines := [];
    }

    /** Writes `line` followed by a newline. */
    method WriteLine(line: string)
      requires Valid()
      modifies this
      ensures Valid() && lines == old(lines) + [line]
    {
      UnlinesSnoc(lines, line);
      text := text + line + "\n";
      lines := lines + [line];
    }
  }

  /** Writes the Caddyfile. */
  method Generate(c: SetupConfig) returns (out: string)
    ensures out == Unlines(CaddyLines(c))
  {
    var buf := new Buffer();
    if c.autoConfigureTLS {
      buf.WriteLine(c.hostname);
      buf.WriteLine("tls " + c.tlsEmail);
    } else {
      buf.WriteLine(c.hostname + ":443");
      buf.WriteLine(CertLine);
    }
    buf.WriteLine(ProxyLine);
    assert buf.lines == CaddyLines(c);
    out := buf.text;
  }

  /** Writes the environment file. */
  method Env(c: SetupConfig) returns (out: string)
    ensures out == Unlines(EnvLines(c))
  {
    var buf := new Buffer();
    buf.WriteLine("AUTOSCALE_ACCESS_TOKEN=" + c.token);
    buf.WriteLine("AUTSCALE_USE_MEMORY_RESOURCES=0");
    buf.WriteLine("AUTSCALE_REGISTER_DEFAULT_METRICS=1");
    buf.WriteLine("AUTSCALE_REGISTER_OFFLINE_METRICS=0");
    buf.WriteLine("AUTSCALE_HTTP_ADDR=:8888");
    buf.WriteLine("AUTSCALE_ENV=production");
    buf.WriteLine("AUTOSCALE_HTTP_ADDR=:8888");
    buf.WriteLine("AUTOSCALE_WEB_PASSWORD=" + c.basicAuthPassword);
    assert buf.lines == EnvLines(c);
    out := buf.text;
  }

  /** The Caddyfile reads back as its three lines when the host name and
      e-mail address hold no newline. */
  lemma CaddyfileLines(c: SetupConfig)
    requires NoNewline(c.hostname) && NoNewline(c.tlsEmail)
    ensures Lines(Unlines(CaddyLines(c))) == CaddyLines(c)
  {
    var ls := CaddyLines(c);
    NoNewlineAppend("tls ", c.tlsEmail);
    NoNewlineAppend(c.hostname, ":443");
    FixedLinesHaveNoNewline();
    assert NoNewline(ls[0]) && NoNewline(ls[1]) && NoNewline(ls[2]);
    LinesUnlines(ls);
  }

  lemma FixedLinesHaveNoNewline()
    ensures NoNewline(CertLine) && NoNewline(ProxyLine)
  {
    NoNewlineAppend("tls /etc/autoscale/", "ssl/autoscale.crt");
    NoNewlineAppend(" /etc/autoscale/", "ssl/autoscale.key");
    NoNewlineAppend("tls /etc/autoscale/" + "ssl/autoscale.crt", " /etc/autoscale/" + "ssl/autoscale.key");
  }

  lemma NoNewlineAppend(a: string, b: string)
    requires NoNewline(a) && NoNewline(b)
    ensures NoNewline(a + b)
  {
    assert forall i :: |a| <= i < |a| + |b| ==> (a + b)[i] == b[i - |a|];
  }

  /** The Caddyfile ignores the token, the password and the allowed hosts,
      and without automatic TLS also the e-mail address. */
  lemma CaddyfileDependsOn(c: SetupConfig, d: SetupConfig)
    requires c.hostname == d.hostname && c.autoConfigureTLS == d.autoConfigureTLS
    requires c.autoConfigureTLS ==> c.tlsEmail == d.tlsEmail
    ensures CaddyLines(c) == CaddyLines(d)
  {
  }

  /** The environment file depends on the token and the password only. */
  lemma EnvDependsOn(c: SetupConfig, d: SetupConfig)
    requires c.token == d.token && c.basicAuthPassword == d.basicAuthPassword
    ensures EnvLines(c) == EnvLines(d)
  {
  }

  /** White space as the Unicode White_Space property has it, which is
      what the trimming of an answer removes. */
  predicate IsSpace(c: char) {
    var n := c as int;
    (9 <= n <= 13) || n == 32 || n == 0x85 || n == 0xA0 || n == 0x1680 ||
    (0x2000 <= n <= 0x200A) || n == 0x2028 || n == 0x2029 || n == 0x202F || n == 0x205F || n == 0x3000
  }

  /** Every character of `s` is white space. */
  predicate AllSpace(s: string) {
    forall i :: 0 <= i < |s| ==> IsSpace(s[i])
  }

  /** `s` without its leading white space: exactly the white space before
      the first other character is dropped. */

  function TrimLeft(s: string): (t: string)
    ensures |t| <= |s| && t == s[|s| - |t|..]
    ensures |t| > 0 ==> !IsSpace(t[0])
    ensures AllSpace(s[..|s| - |t|])
  {
    if |s| > 0 && IsSpace(s[0]) then TrimLeft(s[1..]) else s
  }

  /** `s` without its trailing white space: exactly the white space after
      the last other character is dropped. */
  function TrimRight(s: string): (t: string)
    ensures |t| <= |s| && t == s[..|t|]
    ensures |t| > 0 ==> !IsSpace(t[|t| - 1])
    ensures AllSpace(s[|t|..])
  {
    if |s| > 0 && IsSpace(s[|s| - 1]) then TrimRight(s[..|s| - 1]) else s
  }

  /** The answer without leading and trailing white space. */
  function TrimSpace(s: string): string
  {
    TrimRight(TrimLeft(s))
  }

  function LowerChar(c: char): char {
    if 'A' <= c <= 'Z' then (c as int - 'A' as int + 'a' as int) as char else c
  }

  function ToLower(s: string): (t: string)
    ensures |t| == |s| && forall i :: 0 <= i < |s| ==> t[i] == LowerChar(s[i])
  {
    seq(|s|, i requires 0 <= i < |s| => LowerChar(s[i]))
  }

  datatype Answer = Yes | No | Other

  /** How one line typed at the yes/no prompt is read. */
  function Classify(line: string): Answer
  {
    var l := ToLower(TrimSpace(line));
    if l == "y" then Yes else if l == "n" then No else Other
  }

  /** "y" and "n" are recognised in either case and with white space around them. */
  lemma ClassifySpec(line: string)
    ensures Classify(line) == Yes <==> TrimSpace(line) == "y" || TrimSpace(line) == "Y"
    ensures Classify(line) == No <==> TrimSpace(line) == "n" || TrimSpace(line) == "N"
  {
    var t := TrimSpace(line);
    var l := ToLower(t);
    if |t| == 1 {
      assert l == [LowerChar(t[0])];
      assert t == [t[0]];
    } else {
      assert |l| != 1;
    }
  }

  /** An upper-case answer with white space around it is a yes. */
  lemma ClassifyPaddedYes()
    ensures Classify(" Y\n") == Yes
  {
    PaddedYesTrims();
    assert ToLower("Y")[0] == 'y';
  }

  lemma PaddedYesTrims()
    ensures TrimSpace(" Y\n") == "Y"
  {
    PaddedYesLeft();
    PaddedYesRight();
  }

  lemma PaddedYesLeft()
    ensures TrimLeft(" Y\n") == "Y\n"
  {
    var s := " Y\n";
    assert s[0] == ' ' && s[1..] == "Y\n";
    assert TrimLeft(s) == TrimLeft(s[1..]);
    assert ("Y\n")[0] == 'Y';
  }

  lemma PaddedYesRight()
    ensures TrimRight("Y\n") == "Y"
  {
    var s := "Y\n";
    assert s[1] == '\n' && s[..1] == "Y";
    assert TrimRight(s) == TrimRight(s[..1]);
    assert ("Y")[0] == 'Y';
  }

  /** A bare "n" is a no. */
  lemma ClassifyNo()
    ensures Classify("n") == No
  {
    assert TrimLeft("n") == "n";
    assert TrimRight("n") == "n";
    ClassifySpec("n");
  }

  /** "yes" is neither a yes nor a no. */
  lemma ClassifyWord()
    ensures Classify("yes") == Other
  {
    assert TrimLeft("yes") == "yes";
    assert TrimRight("yes") == "yes";
    assert |ToLower("yes")| == 3;
  }

  /** The first yes or no among the lines read, or the read error that
      ends the prompt; a line that is neither prompts again. Running out
      of input is a read error. */
  function YesNoAnswer(answers: seq<Result<string, Error>>): Result<bool, Error>
  {
    if |answers| == 0 then Failure(Failed("unable to read input: EOF"))
    else match answers[0]
      case Failure(e) => Failure(Failed("unable to read input: " + e.Text()))
      case Success(line) =>
        match Classify(line)
        case Yes => Success(true)
        case No => Success(false)
        case Other => YesNoAnswer(answers[1..])
  }

  /** Lines that are neither yes nor no. */
  predicate Unanswered(answers: seq<Result<string, Error>>) {
    forall j :: 0 <= j < |answers| ==> answers[j].Success? && Classify(answers[j].value) == Other
  }

  /** The answer is decided by the first line that is yes, no or an error. */
  lemma {:induction false} AnswerAt(answers: seq<Result<string, Error>>, i: nat)
    requires i < |answers| && Unanswered(answers[..i])
    requires answers[i].Failure? || Classify(answers[i].value) != Other
    ensures answers[i].Success? ==> YesNoAnswer(answers) == Success(Classify(answers[i].value) == Yes)
    ensures answers[i].Failure? ==> YesNoAnswer(answers) == Failure(Failed("unable to read input: " + answers[i].error.Text()))
  {
    if i > 0 {
      assert answers[..i][0] == answers[0];
      var rest := answers[1..];
      assert rest[..i - 1] == answers[..i][1..];
      assert rest[i - 1] == answers[i];
      assert YesNoAnswer(answers) == YesNoAnswer(rest);
      AnswerAt(rest, i - 1);
    }
  }

  /** Without a yes, a no or an error, the prompt runs out of input. */
  lemma {:induction false} NoAnswer(answers: seq<Result<string, Error>>)
    requires Unanswered(answers)
    ensures YesNoAnswer(answers) == Failure(Failed("unable to read input: EOF"))
  {
    if |answers| > 0 {
      NoAnswer(answers[1..]);
    }
  }

  /** The prompt loop: read lines until one is yes or no. */
  method CollectYesNo(answers: seq<Result<string, Error>>) returns (answer: Result<bool, Error>)
    ensures answer == YesNoAnswer(answers)
  {
    var i := 0;
    while i < |answers|
      invariant 0 <= i <= |answers|
      invariant YesNoAnswer(answers[i..]) == YesNoAnswer(answers)
    {
      var resp := answers[i];
      if resp.Failure? {
        return Failure(Failed("unable to read input: " + resp.error.Text()));
      }
      var l := ToLower(TrimSpace(resp.value));
      if l == "y" {
        return Success(true);
      }
      if l == "n" {
        return Success(false);
      }
      assert answers[i..][1..] == answers[i + 1..];
      i := i + 1;
    }
    answer := Failure(Failed("unable to read input: EOF"));
  }
}
