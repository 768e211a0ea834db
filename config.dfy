/**
 * The launch parameters main builds before cloning the container: built-in
 * defaults, the argv layout, and the optional config file of "key: value"
 * lines that overwrite limits. The config text is taken as already read.
 */
module Config {
  import opened Common
  import opened Format

  /** container_params_t: what main hands the container process and the cgroup writers. */
  datatype Params = Params(
    rootPath: string,
    command: seq<string>,
    memLimit: string,
    memPlusSwapLimit: string,
    pidLimit: string,
    cpuPeriod: string,
    cpuQuota: string)

  const DEFAULT_MEM_LIMIT: string := "41943040"
  const DEFAULT_MEM_PLUS_SWAP_LIMIT: string := "41943040"
  const DEFAULT_PID_LIMIT: string := "10"
  const DEFAULT_CPU_PERIOD: string := "1000000"
  const DEFAULT_CPU_QUOTA: string := "200000"

  /** The fixed CPU period in microseconds; a quota may not exceed it. */
  const CPU_PERIOD_US: nat := 1000000

  /** main's defaults: argv[argc-2] is the root; the command vector is &argv[argc-1], one word before argv's NULL. */
  function InitialParams(argv: seq<string>): Params
    requires |argv| >= 2
  {
    Params(argv[|argv| - 2], [argv[|argv| - 1]],
      DEFAULT_MEM_LIMIT, DEFAULT_MEM_PLUS_SWAP_LIMIT, DEFAULT_PID_LIMIT, DEFAULT_CPU_PERIOD, DEFAULT_CPU_QUOTA)
  }

  // ---------------------------------------------------------------- strtok

  /** The length of the first line of s: the index of its first '\n', or |s|. */
  function LineEnd(s: string): (n: nat)
    ensures n <= |s| && '\n' !in s[..n] && (n < |s| ==> s[n] == '\n')
  {
    if s == [] || s[0] == '\n' then 0 else 1 + LineEnd(s[1..])
  }

  /**
   * strtok(s, "\n"): skip leading newlines; the token runs to the next
   * newline, which is consumed; None once only newlines remain. The second
   * component is where the next strtok(NULL, "\n") resumes.
   */
  function NextToken(s: string): (r: Option<(string, string)>)
    ensures r.Some? ==> r.value.0 != [] && '\n' !in r.value.0 && |r.value.1| < |s|
    ensures r.None? <==> forall i :: 0 <= i < |s| ==> s[i] == '\n'
  {
    if s == [] then None
    else if s[0] == '\n' then
      var r := NextToken(s[1..]);
      assert r.None? ==> forall i :: 0 <= i < |s| ==> s[i] == '\n' by {
        if r.None? {
          forall i | 0 <= i < |s| ensures s[i] == '\n' {
            if i > 0 { assert s[i] == s[1..][i - 1]; }
          }
        }
      }
      r
    else
      var n := LineEnd(s);
      Some((s[..n], if n < |s| then s[n + 1..] else []))
  }

  /** Every token strtok returns, in order. */
  function Tokens(s: string): seq<string>
    decreases |s|
  {
    match NextToken(s)
    case None => []
    case Some((token, rest)) => [token] + Tokens(rest)
  }

  /** The '\n'-separated lines of s, empty ones included. */
  function Lines(s: string): seq<string>
    decreases |s|
  {
    var n := LineEnd(s);
    if n == |s| then [s] else [s[..n]] + Lines(s[n + 1..])
  }

  function NonEmpty(ls: seq<string>): seq<string>
  {
    if ls == [] then [] else (if ls[0] == [] then [] else [ls[0]]) + NonEmpty(ls[1..])
  }

  /** The tokens are exactly the non-empty lines, in order: blank lines are skipped. */
  lemma {:induction false} TokensAreNonEmptyLines(s: string)
    ensures Tokens(s) == NonEmpty(Lines(s))
    decreases |s|
  {
    if s == [] {
    } else if s[0] == '\n' {
      assert NextToken(s) == NextToken(s[1..]);
      assert Tokens(s) == Tokens(s[1..]);
      assert LineEnd(s) == 0;
      var ls := [[]] + Lines(s[1..]);
      assert Lines(s) == ls;
      assert ls[1..] == Lines(s[1..]);
      assert NonEmpty(ls) == NonEmpty(Lines(s[1..]));
      TokensAreNonEmptyLines(s[1..]);
    } else {
      var n := LineEnd(s);
      assert n > 0;
      if n < |s| {
        assert NextToken(s) == Some((s[..n], s[n + 1..]));
        assert Tokens(s) == [s[..n]] + Tokens(s[n + 1..]);
        var ls := [s[..n]] + Lines(s[n + 1..]);
        assert Lines(s) == ls;
        assert ls[1..] == Lines(s[n + 1..]);
        assert NonEmpty(ls) == [s[..n]] + NonEmpty(Lines(s[n + 1..]));
        TokensAreNonEmptyLines(s[n + 1..]);
      } else {
        assert s[..n] == s;
        assert Tokens(s) == [s] + Tokens([]);
      }
    }
  }

  /** The C string in a buffer: everything before its first NUL. */
  function CText(s: string): (c: string)
    ensures c <= s && '\0' !in c && (|c| < |s| ==> s[|c|] == '\0')
  {
    if s == [] || s[0] == '\0' then [] else [s[0]] + CText(s[1..])
  }

  // ---------------------------------------------------------------- strstr

  predicate OccursAt(s: string, key: string, i: int)
  {
    0 <= i && i + |key| <= |s| && s[i..i + |key|] == key
  }

  function FindFrom(s: string, key: string, i: nat): (r: Option<nat>)
    requires i <= |s|
    ensures r.Some? ==> i <= r.value && OccursAt(s, key, r.value)
    decreases |s| - i
  {
    if i + |key| > |s| then None
    else if s[i..i + |key|] == key then Some(i)
    else FindFrom(s, key, i + 1)
  }

  lemma {:induction false} FindFromFirst(s: string, key: string, i: nat)
    requires i <= |s|
    ensures var r := FindFrom(s, key, i);
      (r.Some? ==> forall j :: i <= j < r.value ==> !OccursAt(s, key, j)) &&
      (r.None? ==> forall j :: i <= j ==> !OccursAt(s, key, j))
    decreases |s| - i
  {
    if i + |key| <= |s| && s[i..i + |key|] != key {
      FindFromFirst(s, key, i + 1);
    }
  }

  /** strstr(s, key): the position of an occurrence of key in s, if there is one. */
  function Find(s: string, key: string): (r: Option<nat>)
    ensures r.Some? ==> OccursAt(s, key, r.value)
  {
    FindFrom(s, key, 0)
  }

  /** The occurrence strstr finds is the first, and it finds none only when key occurs nowhere in s. */
  lemma FindFirst(s: string, key: string)
    ensures Find(s, key).Some? ==> forall j :: 0 <= j < Find(s, key).value ==> !OccursAt(s, key, j)
    ensures Find(s, key).None? <==> forall j :: !OccursAt(s, key, j)
  {
    FindFromFirst(s, key, 0);
  }

  // ---------------------------------------------------------------- keys

  datatype Key = MemLimit | MemPlusSwapLimit | PidLimit | CpuPercent

  function KeyText(k: Key): string
  {
    match k
    case MemLimit => "mem_limit:"
    case MemPlusSwapLimit => "mem_plus_swap_limit:"
    case PidLimit => "pid_limit:"
    case CpuPercent => "CPU%:"
  }

  /** How far past the start of the key main's address arithmetic puts the value: the key and one more character. */
  function ValueOffset(k: Key): nat
  {
    match k
    case MemLimit => 11
    case MemPlusSwapLimit => 21
    case PidLimit => 11
    case CpuPercent => 6
  }

  /** The field of the parameter record a key overwrites. */
  function Field(p: Params, k: Key): string
  {
    match k
    case MemLimit => p.memLimit
    case MemPlusSwapLimit => p.memPlusSwapLimit
    case PidLimit => p.pidLimit
    case CpuPercent => p.cpuQuota
  }

  /**
   * The text a token gives for a key, if the key occurs in it: from the
   * value offset past the first occurrence to the end of the token, and
   * nothing when that offset is past the token's end.
   */
  function TextFrom(token: string, at: nat): string
  {
    if at <= |token| then token[at..] else []
  }

  function RawValue(token: string, k: Key): Option<string>
  {
    match Find(token, KeyText(k))
    case None => None
    case Some(i) => Some(TextFrom(token, i + ValueOffset(k)))
  }

  /** A line made of a key, one separating character and a value yields exactly that value. */
  lemma KeyLineValue(k: Key, sep: char, v: string)
    ensures RawValue(KeyText(k) + [sep] + v, k) == Some(v)
  {
    var t := KeyText(k) + [sep] + v;
    assert OccursAt(t, KeyText(k), 0) by {
      assert t[..|KeyText(k)|] == KeyText(k);
    }
    assert t[ValueOffset(k)..] == v;
  }

  /** A value that is there is the rest of its token after the key's first occurrence and one skipped character. */
  lemma RawValueShape(token: string, k: Key)
    requires RawValue(token, k).Some? && RawValue(token, k).value != []
    ensures exists i :: (OccursAt(token, KeyText(k), i) && i + |KeyText(k)| < |token| &&
      token == token[..i] + KeyText(k) + [token[i + |KeyText(k)|]] + RawValue(token, k).value)
  {
    var key := KeyText(k);
    var i := Find(token, key).value;
    var n := |key|;
    assert ValueOffset(k) == n + 1;
    var v := RawValue(token, k).value;
    assert v == TextFrom(token, i + n + 1);
    assert i + n < |token| && v == token[i + n + 1..];
    assert token[i..i + n] == key;
    assert token == token[..i] + token[i..i + n] + [token[i + n]] + token[i + n + 1..];
    assert OccursAt(token, key, i) && token == token[..i] + key + [token[i + n]] + v;
  }

  // ---------------------------------------------------------------- CPU%

  datatype ConfigError = NegativeCpu | CpuOverLimit

  /** main's CPU% conversion: new_quota = atoi(value) * 10000, refused below 0 and above one period. */
  function CpuQuota(v: string): Result<nat, ConfigError>
  {
    var q := Atoi(v) * 10000;
    if q < 0 then Failure(NegativeCpu)
    else if q > CPU_PERIOD_US then Failure(CpuOverLimit)
    else Success(q)
  }

  /** A percentage is accepted exactly when it lies in [0, 100]; the quota is then p * period / 100, at most the period. */
  lemma CpuQuotaRange(v: string)
    ensures CpuQuota(v).Success? <==> 0 <= Atoi(v) <= 100
    ensures CpuQuota(v).Success? ==> CpuQuota(v).value == Atoi(v) * CPU_PERIOD_US / 100 <= CPU_PERIOD_US
    ensures Atoi(v) < 0 ==> CpuQuota(v) == Failure(NegativeCpu)
    ensures Atoi(v) > 100 ==> CpuQuota(v) == Failure(CpuOverLimit)
  {
    var p := Atoi(v);
    if p < 0 {
      assert p * 10000 < 0;
    } else if p > 100 {
      assert p * 10000 > 1000000;
    } else {
      assert p * 10000 <= 1000000;
      assert p * CPU_PERIOD_US / 100 == p * 10000;
    }
  }

  /** A percentage written by printf, from 0 to 100, is taken as that share of the period. */
  lemma CpuPercentAccepted(pct: nat)
    requires pct <= 100
    ensures CpuQuota(Decimal(pct)) == Success(pct * 10000)
  {
    AtoiDecimal(pct);
  }

  /** Above 100 the value is refused as over the limit, below 0 as negative. */
  lemma CpuPercentRefused(pct: nat)
    ensures pct > 100 ==> CpuQuota(Decimal(pct)) == Failure(CpuOverLimit)
    ensures pct > 0 ==> CpuQuota("-" + Decimal(pct)) == Failure(NegativeCpu)
  {
    AtoiDecimal(pct);
    AtoiNegatedDecimal(pct);
  }

  // ---------------------------------------------------------------- the config loop

  /**
   * One token of main's loop: each key found anywhere in the token overwrites
   * its field, in the order mem_limit, mem_plus_swap_limit, pid_limit, CPU%;
   * a refused CPU% ends the whole parse.
   */
  function ApplyToken(o: Params, token: string): Result<Params, ConfigError>
  {
    var o3 := Overwrite(Overwrite(Overwrite(o, token, MemLimit), token, MemPlusSwapLimit), token, PidLimit);
    match RawValue(token, CpuPercent)
    case None => Success(o3)
    case Some(v) =>
      match CpuQuota(v)
      case Failure(e) => Failure(e)
      case Success(q) => Success(SetField(o3, CpuPercent, Decimal(q)))
  }

  function SetField(o: Params, k: Key, v: string): Params
  {
    match k
    case MemLimit => o.(memLimit := v)
    case MemPlusSwapLimit => o.(memPlusSwapLimit := v)
    case PidLimit => o.(pidLimit := v)
    case CpuPercent => o.(cpuQuota := v)
  }

  /** What a token does to a limit that is stored verbatim. */
  function Overwrite(o: Params, token: string, k: Key): Params
  {
    match RawValue(token, k)
    case Some(v) => SetField(o, k, v)
    case None => o
  }

  lemma OverwriteField(o: Params, token: string, k: Key, k': Key)
    ensures var p := Overwrite(o, token, k);
      Field(p, k') == (if k == k' && RawValue(token, k).Some? then RawValue(token, k).value else Field(o, k')) &&
      p.rootPath == o.rootPath && p.command == o.command && p.cpuPeriod == o.cpuPeriod
  {
  }

  /** main's loop over the tokens: each is applied in turn, and the first refusal ends the parse. */
  function ParseTokens(o: Params, tokens: seq<string>): Result<Params, ConfigError>
  {
    Fold(o, tokens, ApplyToken)
  }

  /** A token mentioning none of the four keys leaves the parameters as they were. */
  lemma UnrelatedTokenIgnored(o: Params, token: string)
    requires forall k: Key :: Find(token, KeyText(k)).None?
    ensures ApplyToken(o, token) == Success(o)
  {
    assert RawValue(token, MemLimit).None? && RawValue(token, MemPlusSwapLimit).None?;
    assert RawValue(token, PidLimit).None? && RawValue(token, CpuPercent).None?;
  }

  /** The raw text the last token mentioning k gives for it. */
  function LastRaw(tokens: seq<string>, k: Key): Option<string>
    decreases |tokens|
  {
    if tokens == [] then None
    else match RawValue(tokens[|tokens| - 1], k)
      case Some(v) => Some(v)
      case None => LastRaw(tokens[..|tokens| - 1], k)
  }

  lemma ApplyTokenField(o: Params, t: string, p: Params, k: Key)
    requires ApplyToken(o, t) == Success(p)
    ensures RawValue(t, k).None? ==> Field(p, k) == Field(o, k)
    ensures RawValue(t, k).Some? && k != CpuPercent ==> Field(p, k) == RawValue(t, k).value
    ensures RawValue(t, k).Some? && k == CpuPercent ==>
      CpuQuota(RawValue(t, k).value).Success? && Field(p, k) == Decimal(CpuQuota(RawValue(t, k).value).value)
    ensures p.rootPath == o.rootPath && p.command == o.command && p.cpuPeriod == o.cpuPeriod
  {
    var o1 := Overwrite(o, t, MemLimit);
    var o2 := Overwrite(o1, t, MemPlusSwapLimit);
    var o3 := Overwrite(o2, t, PidLimit);
    OverwriteField(o, t, MemLimit, k);
    OverwriteField(o1, t, MemPlusSwapLimit, k);
    OverwriteField(o2, t, PidLimit, k);
    if RawValue(t, CpuPercent).Some? {
      assert p == SetField(o3, CpuPercent, Decimal(CpuQuota(RawValue(t, CpuPercent).value).value));
    } else {
      assert p == o3;
    }
  }

  /**
   * When the same key appears on several lines the last one wins; a key on
   * no line keeps its earlier value; root, command and period never change.
   */
  lemma {:induction false} LaterLineWins(o: Params, tokens: seq<string>, p: Params, k: Key)
    requires ParseTokens(o, tokens) == Success(p)
    ensures LastRaw(tokens, k).None? ==> Field(p, k) == Field(o, k)
    ensures LastRaw(tokens, k).Some? && k != CpuPercent ==> Field(p, k) == LastRaw(tokens, k).value
    ensures LastRaw(tokens, k).Some? && k == CpuPercent ==>
      CpuQuota(LastRaw(tokens, k).value).Success? && Field(p, k) == Decimal(CpuQuota(LastRaw(tokens, k).value).value)
    ensures p.rootPath == o.rootPath && p.command == o.command && p.cpuPeriod == o.cpuPeriod
    decreases |tokens|
  {
    if tokens != [] {
      var init, t := tokens[..|tokens| - 1], tokens[|tokens| - 1];
      assert tokens == init + [t];
      FoldSnoc(o, init, t, ApplyToken);
      assert ParseTokens(o, init).Success?;
      var q := ParseTokens(o, init).value;
      assert ApplyToken(q, t) == Success(p);
      LaterLineWins(o, init, q, k);
      ApplyTokenField(q, t, p, k);
      assert LastRaw(tokens, k) == if RawValue(t, k).Some? then RawValue(t, k) else LastRaw(init, k);
    }
  }

  /** A token whose CPU% value is refused. */
  predicate RefusesCpu(token: string)
  {
    RawValue(token, CpuPercent).Some? && CpuQuota(RawValue(token, CpuPercent).value).Failure?
  }

  /** The first token whose CPU% value is refused, if any. */
  function FirstRefused(tokens: seq<string>): Option<nat>
  {
    FirstWhere(tokens, RefusesCpu)
  }

  /** A single token fails exactly when its CPU% is refused, and with that refusal's error. */
  lemma ApplyTokenRefuses(o: Params, t: string)
    ensures ApplyToken(o, t).Failure? <==> RefusesCpu(t)
    ensures RefusesCpu(t) ==> ApplyToken(o, t).error == CpuQuota(RawValue(t, CpuPercent).value).error
  {
  }

  /** The error a token refusing its CPU% ends the parse with (CpuOverLimit for any other token, where it is never used). */
  function CpuRefusal(token: string): ConfigError
  {
    match RawValue(token, CpuPercent)
    case Some(v) => if CpuQuota(v).Failure? then CpuQuota(v).error else CpuOverLimit
    case None => CpuOverLimit
  }

  /** The parse fails exactly when some line's CPU% is out of range, and with the error of the first such line. */
  lemma ParseRejects(o: Params, tokens: seq<string>)
    ensures ParseTokens(o, tokens).Failure? <==> FirstRefused(tokens).Some?
    ensures FirstRefused(tokens).Some? ==>
      ParseTokens(o, tokens).error == CpuQuota(RawValue(tokens[FirstRefused(tokens).value], CpuPercent).value).error
  {
    forall o': Params, t: string | RefusesCpu(t) ensures ApplyToken(o', t) == Failure(CpuRefusal(t)) {
      ApplyTokenRefuses(o', t);
    }
    forall o': Params, t: string | !RefusesCpu(t) ensures ApplyToken(o', t).Success? {
      ApplyTokenRefuses(o', t);
    }
    FoldStopsAtFirst(o, tokens, ApplyToken, RefusesCpu, CpuRefusal);
  }

  /** One of the three limit tests: if strstr finds the key, the text past it becomes that field. */
  method StoreValue(o: Params, t: string, k: Key) returns (o': Params)
    requires k != CpuPercent
    ensures o' == Overwrite(o, t, k)
  {
    o' := o;
    var found := Find(t, KeyText(k));
    if found.Some? {
      var value := TextFrom(t, found.value + ValueOffset(k));
      match k
      case MemLimit => o' := o'.(memLimit := value);
      case MemPlusSwapLimit => o' := o'.(memPlusSwapLimit := value);
      case PidLimit => o' := o'.(pidLimit := value);
    }
  }

  /** One pass of the loop body: the four strstr tests on a token, in the order of the source. */
  method ApplyLine(opts: Params, t: string) returns (r: Result<Params, ConfigError>)
    ensures r == ApplyToken(opts, t)
  {
    var o := StoreValue(opts, t, MemLimit);
    o := StoreValue(o, t, MemPlusSwapLimit);
    o := StoreValue(o, t, PidLimit);
    ghost var o3 := o;
    assert ApplyToken(opts, t) == match RawValue(t, CpuPercent)
      case None => Success(o3)
      case Some(v) =>
        match CpuQuota(v)
        case Failure(e) => Failure(e)
        case Success(q) => Success(o3.(cpuQuota := Decimal(q)));
    var found := Find(t, KeyText(CpuPercent));
    if found.Some? {
      var value := TextFrom(t, found.value + ValueOffset(CpuPercent));
      assert RawValue(t, CpuPercent) == Some(value);
      var newQuota := Atoi(value) * 10000;
      if newQuota < 0 {
        return Failure(NegativeCpu);
      }
      if newQuota > 1000000 {
        return Failure(CpuOverLimit);
      }
      assert CpuQuota(value) == Success(newQuota);
      o := o.(cpuQuota := Decimal(newQuota));
    }
    return Success(o);
  }

  /**
   * The strtok loop of main over an already-read config buffer: each token
   * overwrites the fields whose keys it contains, and a refused CPU% ends the
   * parse with an error.
   */
  method ApplyConfig(options: Params, text: string) returns (r: Result<Params, ConfigError>)
    ensures r == ParseTokens(options, Tokens(CText(text)))
  {
    var opts := options;
    var remaining := CText(text);
    var token := NextToken(remaining);
    while token.Some?
      invariant token == NextToken(remaining)
      invariant ParseTokens(opts, Tokens(remaining)) == ParseTokens(options, Tokens(CText(text)))
      decreases |remaining|
    {
      var (t, after) := token.value;
      assert Tokens(remaining) == [t] + Tokens(after);
      var applied := ApplyLine(opts, t);
      if applied.Failure? {
        return applied;
      }
      opts := applied.value;
      remaining := after;
      token := NextToken(remaining);
    }
    return Success(opts);
  }

  // ---------------------------------------------------------------- values read past their line

  /**
   * The config buffer after strtok has run over it all: every newline that
   * ends a token (one that follows a non-newline character) has become a NUL,
   * and main's own NUL follows the bytes read.
   */
  function StrtokMarks(s: string, afterToken: bool): (m: string)
    ensures |m| == |s|
  {
    if s == [] then []
    else [if s[0] == '\n' && afterToken then '\0' else s[0]] + StrtokMarks(s[1..], s[0] != '\n')
  }

  function Terminated(text: string): string
  {
    StrtokMarks(text, false) + ['\0']
  }

  /**
   * What main stores for a key as the code is written: the C string at the
   * value's address in the buffer, which is not confined to the key's line;
   * None when that address lies past everything read (uninitialised bytes).
   */
  function BufferValue(text: string, at: nat): Option<string>
  {
    var b := Terminated(text);
    if at < |b| then Some(CText(b[at..])) else None
  }

  lemma {:induction false} StrtokMarksPlain(s: string, afterToken: bool)
    requires '\n' !in s
    ensures StrtokMarks(s, afterToken) == s
    decreases |s|
  {
    if s != [] {
      StrtokMarksPlain(s[1..], true);
    }
  }

  lemma {:induction false} StrtokMarksAppend(a: string, b: string, afterToken: bool)
    requires a != []
    ensures StrtokMarks(a + b, afterToken) == StrtokMarks(a, afterToken) + StrtokMarks(b, a[|a| - 1] != '\n')
    decreases |a|
  {
    assert (a + b)[0] == a[0] && (a + b)[1..] == a[1..] + b;
    if |a| > 1 {
      StrtokMarksAppend(a[1..], b, a[0] != '\n');
    }
  }

  /**
   * As written, a "mem_limit:" line with nothing after the colon takes the
   * whole next line as its value, e.g. "pid_limit: 5".
   */
  lemma MemLimitTakesNextLine(next: string)
    requires '\n' !in next && '\0' !in next
    ensures BufferValue("mem_limit:" + "\n" + next, 0 + ValueOffset(MemLimit)) == Some(next)
  {
    LineTakesNextLine(KeyText(MemLimit), next);
  }

  /** strtok marks the newline after a non-empty line, and nothing else when the lines hold no other newline. */
  lemma MarksAcrossLine(line: string, next: string)
    requires line != [] && '\n' !in line && '\n' !in next
    ensures StrtokMarks(line + "\n" + next, false) == line + "\0" + next
  {
    var tail := "\n" + next;
    assert line + "\n" + next == line + tail;
    StrtokMarksAppend(line, tail, false);
    StrtokMarksPlain(line, false);
    assert line[|line| - 1] != '\n';
    assert tail[0] == '\n' && tail[1..] == next;
    assert StrtokMarks(tail, true) == "\0" + StrtokMarks(next, false);
    StrtokMarksPlain(next, false);
  }

  lemma LineTakesNextLine(line: string, next: string)
    requires line != [] && '\n' !in line && '\0' !in line
    requires '\n' !in next && '\0' !in next
    ensures BufferValue(line + "\n" + next, |line| + 1) == Some(next)
  {
    MarksAcrossLine(line, next);
    var b := Terminated(line + "\n" + next);
    assert b == (line + "\0") + (next + "\0");
    assert b[|line| + 1..] == next + "\0";
    CTextPlain(next, "\0");
  }

  /** ... while that line, the first token, has nothing after its key. */
  lemma MemLimitLineIsEmpty(next: string)
    requires '\n' !in next
    ensures Tokens("mem_limit:" + "\n" + next)[0] == "mem_limit:"
    ensures RawValue("mem_limit:", MemLimit) == Some([])
  {
    var key := "mem_limit:";
    var text := key + "\n" + next;
    assert text == key + ("\n" + next);
    LineEndPlain(key, "\n" + next);
    assert text[..10] == key;
    assert OccursAt(key, key, 0);
  }

  /**
   * As written, the same happens to CPU%: after a bare "CPU%:" line,
   * main's value pointer lands on the next line, so "CPU%:\n500" is read
   * as 500 per cent and main gives up with EXIT_FAILURE.
   */
  lemma CpuPercentTakesNextLine(pct: nat)
    requires pct > 100
    ensures BufferValue("CPU%:" + "\n" + Decimal(pct), 0 + ValueOffset(CpuPercent)) == Some(Decimal(pct))
    ensures CpuQuota(Decimal(pct)) == Failure(CpuOverLimit)
  {
    var d := Decimal(pct);
    DigitsHaveNoNewline(d);
    LineTakesNextLine(KeyText(CpuPercent), d);
    CpuPercentRefused(pct);
  }

  lemma DigitsHaveNoNewline(d: string)
    requires AllDigits(d)
    ensures '\n' !in d
  {
    assert forall i :: 0 <= i < |d| ==> d[i] != '\n';
  }

  /** No key occurs in a string of digits: every key starts with a letter. */
  lemma DigitsMentionNoKey(d: string)
    requires AllDigits(d)
    ensures forall k: Key :: Find(d, KeyText(k)).None?
  {
    forall k: Key ensures Find(d, KeyText(k)).None? {
      var key := KeyText(k);
      assert !IsDigit(key[0]);
      forall j ensures !OccursAt(d, key, j) {
        if 0 <= j && j + |key| <= |d| {
          assert d[j..j + |key|][0] == d[j];
        }
      }
      FindFirst(d, key);
    }
  }

  /**
   * Corrected: the bare "CPU%:" line has an empty value, which atoi reads
   * as 0 per cent, and the next line mentions no key, so the same text is
   * accepted with a quota of 0.
   */
  lemma CpuLineIsEmpty(o: Params, pct: nat)
    ensures Tokens("CPU%:" + "\n" + Decimal(pct)) == ["CPU%:", Decimal(pct)]
    ensures ParseTokens(o, ["CPU%:", Decimal(pct)]) == Success(o.(cpuQuota := "0"))
  {
    var key := "CPU%:";
    var d := Decimal(pct);
    var text := key + "\n" + d;
    DigitsHaveNoNewline(d);
    assert text == key + ("\n" + d);
    LineEndPlain(key, "\n" + d);
    assert text[..5] == key && text[6..] == d;
    assert NextToken(text) == Some((key, d));
    assert d[..|d|] == d;
    assert NextToken(d) == Some((d, []));
    assert Tokens(d) == [d] + Tokens([]);
    assert OccursAt(key, key, 0);
    assert RawValue(key, CpuPercent) == Some([]);
    assert CpuQuota([]) == Success(0);
    assert ApplyToken(o, key) == Success(o.(cpuQuota := "0"));
    DigitsMentionNoKey(d);
    UnrelatedTokenIgnored(o.(cpuQuota := "0"), d);
    var l := [key, d];
    assert l[1..] == [d] && l[1..][1..] == [];
    assert Fold(o.(cpuQuota := "0"), [d], ApplyToken) == Fold(o.(cpuQuota := "0"), [], ApplyToken);
    assert ParseTokens(o, l) == Fold(o.(cpuQuota := "0"), [d], ApplyToken);
  }

  lemma {:induction false} CTextPlain(s: string, rest: string)
    requires '\0' !in s && rest != [] && rest[0] == '\0'
    ensures CText(s + rest) == s
    decreases |s|
  {
    if s != [] {
      assert (s + rest)[1..] == s[1..] + rest;
      CTextPlain(s[1..], rest);
    }
  }

  lemma {:induction false} LineEndPlain(s: string, rest: string)
    requires '\n' !in s && rest != [] && rest[0] == '\n'
    ensures LineEnd(s + rest) == |s|
    decreases |s|
  {
    if s != [] {
      assert (s + rest)[1..] == s[1..] + rest;
      LineEndPlain(s[1..], rest);
    }
  }

  /** Corrected: the value the model stores is always part of its own line, empty when the line ends at the key. */
  lemma RawValueWithinLine(token: string, k: Key)
    requires '\n' !in token && RawValue(token, k).Some?
    ensures var v := RawValue(token, k).value; |v| <= |token| && v == token[|token| - |v|..] && '\n' !in v
  {
  }

  // ---------------------------------------------------------------- the buffer the config is read into

  /** main reads the config with one read(2) into char buff[1000]. */
  const CONFIG_BUFFER_SIZE: nat := 1000

  /** As written: read asks for the whole buffer, and buff[bytes_read] = '\0' goes at index bytes_read. */
  function TerminatorIndexAsWritten(offered: nat): nat
  {
    Min(offered, CONFIG_BUFFER_SIZE)
  }

  /**
   * The NUL's index is inside char buff[1000] exactly when the file is
   * shorter than the buffer: a file of 1000 bytes or more puts it at
   * index 1000, one past the end.
   */
  lemma FullReadOverruns(offered: nat, buff: array<char>)
    requires buff.Length == CONFIG_BUFFER_SIZE
    ensures TerminatorIndexAsWritten(offered) < buff.Length <==> offered < CONFIG_BUFFER_SIZE
    ensures offered >= CONFIG_BUFFER_SIZE ==> TerminatorIndexAsWritten(offered) == buff.Length
  {
  }

  /**
   * Corrected: ask for one byte less than the buffer holds, so the NUL
   * always fits. The buffer then holds the first bytes of the file and the
   * terminator; the text the parser sees is what precedes the first NUL.
   */
  method ReadConfigBuffer(file: string, buff: array<char>) returns (n: nat)
    requires buff.Length == CONFIG_BUFFER_SIZE
    modifies buff
    ensures n == Min(|file|, CONFIG_BUFFER_SIZE - 1) && n < buff.Length
    ensures buff[..n] == file[..n] && buff[n] == '\0'
  {
    n := Min(|file|, CONFIG_BUFFER_SIZE - 1);
    for j := 0 to n
      invariant buff[..j] == file[..j]
    {
      buff[j] := file[j];
      assert buff[..j + 1] == buff[..j] + [file[j]];
    }
    buff[n] := '\0';
  }

  // ---------------------------------------------------------------- main's front half

  /** What the single read of the config file named by argv[1] produced. */
  datatype ConfigFile = Unopenable | ReadFails | ReadBytes(file: string)

  datatype LaunchError = Usage | ConfigUnopenable | ConfigUnreadable | BadConfig(reason: ConfigError)

  /**
   * The parameters main launches with: fewer than three arguments is a usage
   * error; a config file is read only when there are exactly four; failing to
   * open it, or reading 0 bytes or -1, is an error. At most one buffer less its
   * terminator is read.
   */
  function LaunchParams(argv: seq<string>, config: ConfigFile): Result<Params, LaunchError>
  {
    if |argv| < 3 then Failure(Usage)
    else if |argv| != 4 then Success(InitialParams(argv))
    else match config
      case Unopenable => Failure(ConfigUnopenable)
      case ReadFails => Failure(ConfigUnreadable)
      case ReadBytes(file) =>
        var text := file[..Min(|file|, CONFIG_BUFFER_SIZE - 1)];
        if text == [] then Failure(ConfigUnreadable)
        else match ParseTokens(InitialParams(argv), Tokens(CText(text)))
          case Failure(e) => Failure(BadConfig(e))
          case Success(p) => Success(p)
  }

  /**
   * The argv layout and the defaults: fewer than three arguments fail; any
   * accepted launch runs argv[argc-1] alone inside root argv[argc-2] with a
   * period of one second; without a config file the limits are the defaults.
   */
  lemma {:induction false} LaunchLayout(argv: seq<string>, config: ConfigFile)
    ensures LaunchParams(argv, config) == Failure(Usage) <==> |argv| < 3
    ensures LaunchParams(argv, config).Success? ==>
      var p := LaunchParams(argv, config).value;
      p.rootPath == argv[|argv| - 2] && p.command == [argv[|argv| - 1]] && p.cpuPeriod == "1000000"
    ensures |argv| >= 3 && |argv| != 4 ==>
      LaunchParams(argv, config) == Success(Params(argv[|argv| - 2], [argv[|argv| - 1]],
        "41943040", "41943040", "10", "1000000", "200000"))
  {
    if |argv| == 4 && config.ReadBytes? && Min(|config.file|, CONFIG_BUFFER_SIZE - 1) > 0 {
      var o := InitialParams(argv);
      var ts := Tokens(CText(config.file[..Min(|config.file|, CONFIG_BUFFER_SIZE - 1)]));
      if ParseTokens(o, ts).Success? {
        LaterLineWins(o, ts, ParseTokens(o, ts).value, MemLimit);
      }
    }
  }
}
