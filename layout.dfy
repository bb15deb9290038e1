/**
 The pure parts of the job-submission handler (src/app/api/separate/route.ts):
 the job id, the directory layout derived from it, the separation command line,
 and the stem URLs of the success response.

 Paths are abstract strings joined with `/`; the platform's path normalisation
 is not modelled.
 */
module Layout {

  // ---------------------------------------------------------------------------
  // Job ids: the decimal rendering of the millisecond clock reading
  // ---------------------------------------------------------------------------

  predicate IsDigit(c: char)
  {
    '0' <= c <= '9'
  }

  predicate AllDigits(s: string)
  {
    forall i :: 0 <= i < |s| ==> IsDigit(s[i])
  }

  function DigitChar(d: nat): (c: char)
    requires d < 10
    ensures IsDigit(c)
  {
    ('0' as int + d) as char
  }

  function DigitValue(c: char): nat
    requires IsDigit(c)
  {
    (c as int - '0' as int) as nat
  }

  /**
   The decimal rendering of `n`, as a number's `toString()` gives it: at least one
   digit, and no leading zero unless the number is zero itself.
   */
  function Decimal(n: nat): (s: string)
    ensures |s| > 0 && AllDigits(s)
    ensures (s[0] == '0') == (n == 0)
    ensures n == 0 ==> s == "0"
  {
    if n < 10 then [DigitChar(n)] else Decimal(n / 10) + [DigitChar(n % 10)]
  }

  /** The number a string of decimal digits denotes. */
  function DecimalValue(s: string): nat
    requires AllDigits(s)
  {
    if s == [] then 0 else DecimalValue(s[..|s| - 1]) * 10 + DigitValue(s[|s| - 1])
  }

  /** Reading back a rendered number gives the number. */
  lemma {:induction false} DecimalRoundTrip(n: nat)
    ensures DecimalValue(Decimal(n)) == n
  {
    if n >= 10 {
      var s := Decimal(n);
      assert s[..|s| - 1] == Decimal(n / 10);
      DecimalRoundTrip(n / 10);
    }
  }

  /** The id of a job submitted at clock reading `now` (milliseconds). */
  function JobId(now: nat): string
  {
    Decimal(now)
  }

  /**
   Two submissions get the same job id exactly when they read the same clock
   value; the id contains no `/`, so it names a single directory.
   */
  lemma JobIdUnique(a: nat, b: nat)
    ensures JobId(a) == JobId(b) <==> a == b
    ensures '/' !in JobId(a) && |JobId(a)| > 0
  {
    DecimalRoundTrip(a);
    DecimalRoundTrip(b);
    var s := JobId(a);
    assert forall i :: 0 <= i < |s| ==> s[i] != '/';
  }

  // ---------------------------------------------------------------------------
  // Directory layout
  // ---------------------------------------------------------------------------

  function Join(dir: string, name: string): string
  {
    dir + "/" + name
  }

  /** The uploads root, `cwd/public/uploads`. */
  function UploadsRoot(cwd: string): string
  {
    Join(Join(cwd, "public"), "uploads")
  }

  function UploadDir(cwd: string, jobId: string): string
  {
    Join(UploadsRoot(cwd), jobId)
  }

  function OutputDir(cwd: string, jobId: string): string
  {
    Join(UploadDir(cwd, jobId), "output")
  }

  function InputPath(cwd: string, jobId: string): string
  {
    Join(UploadDir(cwd, jobId), "input.mp3")
  }

  /** `p` is `dir` itself or lies somewhere beneath it. */
  predicate Under(p: string, dir: string)
  {
    p == dir || dir + "/" <= p
  }

  /**
   The layout of one job: the job directory is a direct child of the uploads
   root, the output directory and the input file are two different direct
   children of it, and neither is the job directory itself.
   */
  lemma LayoutShape(cwd: string, now: nat)
    ensures var id := JobId(now);
            && UploadDir(cwd, id) == UploadsRoot(cwd) + "/" + id
            && OutputDir(cwd, id) == UploadsRoot(cwd) + "/" + id + "/output"
            && InputPath(cwd, id) == UploadsRoot(cwd) + "/" + id + "/input.mp3"
            && Under(OutputDir(cwd, id), UploadDir(cwd, id))
            && Under(InputPath(cwd, id), UploadDir(cwd, id))
            && |UploadDir(cwd, id)| < |OutputDir(cwd, id)| < |InputPath(cwd, id)|
  {
  }

  /** The leading part of `s` before the first `stop` character. */
  function UpTo(s: string, stop: char): (r: string)
    ensures r <= s && stop !in r
  {
    if s == [] || s[0] == stop then [] else [s[0]] + UpTo(s[1..], stop)
  }

  /** A `stop`-free string followed by `stop` (or by nothing) is read back by `UpTo`. */
  lemma {:induction false} UpToPrefix(a: string, rest: string, stop: char)
    requires stop !in a
    requires rest == [] || rest[0] == stop
    ensures UpTo(a + rest, stop) == a
  {
    if a == [] {
      assert a + rest == rest;
    } else {
      assert (a + rest)[1..] == a[1..] + rest;
      UpToPrefix(a[1..], rest, stop);
    }
  }

  /** Two single-segment names under one directory are nested only when they are equal. */
  lemma SegmentsDisjoint(root: string, a: string, b: string, rest: string)
    requires '/' !in a && '/' !in b
    requires Under(root + "/" + a + rest, root + "/" + b)
    requires rest == [] || rest[0] == '/'
    ensures a == b
  {
    var n := |root| + 1;
    var pa, pb := root + "/" + a + rest, root + "/" + b;
    assert pa[n..] == a + rest;
    UpToPrefix(a, rest, '/');
    if pa == pb {
      assert pa[n..] == b + [];
      UpToPrefix(b, [], '/');
    } else {
      var t := pa[|pb| + 1..];
      assert pa == pb + "/" + t;
      assert pa[n..] == b + ("/" + t);
      UpToPrefix(b, "/" + t, '/');
    }
  }

  /**
   Jobs submitted at different clock readings live in disjoint trees: no path of
   one job's layout lies under the other job's directory.
   */
  lemma JobTreesDisjoint(cwd: string, a: nat, b: nat)
    requires a != b
    ensures !Under(UploadDir(cwd, JobId(a)), UploadDir(cwd, JobId(b)))
    ensures !Under(OutputDir(cwd, JobId(a)), UploadDir(cwd, JobId(b)))
    ensures !Under(InputPath(cwd, JobId(a)), UploadDir(cwd, JobId(b)))
  {
    JobIdUnique(a, b);
    JobIdUnique(b, a);
    var root, ia, ib := UploadsRoot(cwd), JobId(a), JobId(b);
    if Under(UploadDir(cwd, ia), UploadDir(cwd, ib)) {
      assert UploadDir(cwd, ia) == root + "/" + ia + "";
      SegmentsDisjoint(root, ia, ib, "");
    }
    if Under(OutputDir(cwd, ia), UploadDir(cwd, ib)) {
      assert OutputDir(cwd, ia) == root + "/" + ia + "/output";
      SegmentsDisjoint(root, ia, ib, "/output");
    }
    if Under(InputPath(cwd, ia), UploadDir(cwd, ib)) {
      assert InputPath(cwd, ia) == root + "/" + ia + "/input.mp3";
      SegmentsDisjoint(root, ia, ib, "/input.mp3");
    }
  }

  // ---------------------------------------------------------------------------
  // The separation command
  // ---------------------------------------------------------------------------

  /** `words.join(sep)`. */
  function JoinWords(words: seq<string>, sep: string): string
  {
    if words == [] then ""
    else if |words| == 1 then words[0]
    else words[0] + sep + JoinWords(words[1..], sep)
  }

  function Quote(s: string): string
  {
    "\"" + s + "\""
  }

  /** The fixed options: two-stem vocals mode, 320 kbit/s mp3 output, `{track}/{stem}.{ext}` naming. */
  const Options: seq<string> :=
    ["demucs", "--two-stems=vocals", "--mp3", "--mp3-bitrate=320", "--mp3-preset=2",
     "--filename={track}/{stem}.{ext}"]

  /** The words of the command, in order. */
  function CommandWords(inputPath: string, outputDir: string): seq<string>
  {
    Options + [Quote(inputPath), "-o " + Quote(outputDir)]
  }

  /** The command line handed to the shell. */
  function DemucsCommand(inputPath: string, outputDir: string): string
  {
    JoinWords(CommandWords(inputPath, outputDir), " ")
  }

  /** Joining two non-empty runs of words puts one separator between their joins. */
  lemma {:induction false} JoinWordsAppend(xs: seq<string>, ys: seq<string>, sep: string)
    requires xs != [] && ys != []
    ensures JoinWords(xs + ys, sep) == JoinWords(xs, sep) + sep + JoinWords(ys, sep)
    decreases |xs|
  {
    assert (xs + ys)[1..] == xs[1..] + ys;
    if |xs| > 1 {
      JoinWordsAppend(xs[1..], ys, sep);
    }
  }

  /**
   The command line is exactly these words, in this order, each followed by a
   single space except the last: `demucs`, the five fixed options, the quoted
   input path, and `-o` with the quoted output directory.
   */
  lemma CommandText(inputPath: string, outputDir: string)
    ensures DemucsCommand(inputPath, outputDir)
         == "demucs" + " " + ("--two-stems=vocals" + " " + ("--mp3" + " " + ("--mp3-bitrate=320" + " "
            + ("--mp3-preset=2" + " " + ("--filename={track}/{stem}.{ext}" + " "
            + ("\"" + inputPath + "\"" + " " + ("-o " + ("\"" + outputDir + "\""))))))))
  {
    var w0, w1, w2, w3, w4, w5 := "demucs", "--two-stems=vocals", "--mp3", "--mp3-bitrate=320",
                                  "--mp3-preset=2", "--filename={track}/{stem}.{ext}";
    var q, o := Quote(inputPath), "-o " + Quote(outputDir);
    var ws := CommandWords(inputPath, outputDir);
    assert ws[1..] == [w1, w2, w3, w4, w5, q, o];
    assert ws[2..] == [w2, w3, w4, w5, q, o];
    assert ws[3..] == [w3, w4, w5, q, o];
    assert ws[4..] == [w4, w5, q, o];
    assert ws[5..] == [w5, q, o];
    assert ws[6..] == [q, o];
    assert ws[7..] == [o];
    assert JoinWords(ws[6..], " ") == q + " " + o;
    assert JoinWords(ws[5..], " ") == w5 + " " + JoinWords(ws[6..], " ");
    assert JoinWords(ws[4..], " ") == w4 + " " + JoinWords(ws[5..], " ");
    assert JoinWords(ws[3..], " ") == w3 + " " + JoinWords(ws[4..], " ");
    assert JoinWords(ws[2..], " ") == w2 + " " + JoinWords(ws[3..], " ");
    assert JoinWords(ws[1..], " ") == w1 + " " + JoinWords(ws[2..], " ");
    assert JoinWords(ws, " ") == w0 + " " + JoinWords(ws[1..], " ");
  }

  /** What follows the quoted input path: `" -o "<outputDir>"`. */
  function CommandTail(outputDir: string): string
  {
    "\" -o \"" + outputDir + "\""
  }

  /** The command line is a fixed head, then the input path, then the tail naming the output directory. */
  lemma CommandSplit(inputPath: string, outputDir: string)
    ensures DemucsCommand(inputPath, outputDir)
         == JoinWords(Options, " ") + " \"" + (inputPath + CommandTail(outputDir))
  {
    var q, o := Quote(inputPath), "-o " + Quote(outputDir);
    JoinWordsAppend(Options, [q, o], " ");
    assert JoinWords([q, o], " ") == q + " " + o;
  }

  /** No double quote in `s`: quoting it cannot be confused. */
  predicate QuoteFree(s: string)
  {
    '"' !in s
  }

  /**
   The command line determines its two paths: the worker is told exactly the
   input file and output directory of this job, so long as the input path
   contains no double quote.
   */
  lemma CommandDeterminesPaths(i1: string, o1: string, i2: string, o2: string)
    requires QuoteFree(i1) && QuoteFree(i2)
    requires DemucsCommand(i1, o1) == DemucsCommand(i2, o2)
    ensures i1 == i2 && o1 == o2
  {
    CommandSplit(i1, o1);
    CommandSplit(i2, o2);
    var head := JoinWords(Options, " ") + " \"";
    var c := DemucsCommand(i1, o1);
    var t1, t2 := CommandTail(o1), CommandTail(o2);
    assert c[|head|..] == i1 + t1 == i2 + t2;
    UpToPrefix(i1, t1, '"');
    UpToPrefix(i2, t2, '"');
    assert t1 == (i1 + t1)[|i1|..] == t2;
    assert o1 == t1[6..|t1| - 1];
  }

  // ---------------------------------------------------------------------------
  // The success response's stem URLs
  // ---------------------------------------------------------------------------

  /** The public URL of a stem file of a job, as the success response spells it. */
  function StemUrl(jobId: string, file: string): string
  {
    "/uploads/" + jobId + "/output/htdemucs/input/" + file
  }

  function VocalsUrl(jobId: string): string
  {
    StemUrl(jobId, "vocals.wav")
  }

  function InstrumentalUrl(jobId: string): string
  {
    StemUrl(jobId, "no_vocals.wav")
  }

  /** Where the handler expects a stem: `outputDir/htdemucs/input/<file>`. */
  function StemPath(cwd: string, jobId: string, file: string): string
  {
    Join(Join(Join(OutputDir(cwd, jobId), "htdemucs"), "input"), file)
  }

  /** Served from `cwd/public`, a stem URL names the stem file under the job's output directory. */
  lemma StemUrlNamesStemPath(cwd: string, jobId: string, file: string)
    ensures Join(cwd, "public") + StemUrl(jobId, file) == StemPath(cwd, jobId, file)
  {
  }

  /**
   Served from `cwd/public`, the two URLs of the success response name the `.wav`
   stem files under the job's output directory, and they differ from each other.
   */
  lemma UrlsNameStemPaths(cwd: string, jobId: string)
    ensures Join(cwd, "public") + VocalsUrl(jobId) == StemPath(cwd, jobId, "vocals.wav")
    ensures Join(cwd, "public") + InstrumentalUrl(jobId) == StemPath(cwd, jobId, "no_vocals.wav")
    ensures VocalsUrl(jobId) != InstrumentalUrl(jobId)
  {
    StemUrlNamesStemPath(cwd, jobId, "vocals.wav");
    StemUrlNamesStemPath(cwd, jobId, "no_vocals.wav");
    var p := "/uploads/" + jobId + "/output/htdemucs/input/";
    assert VocalsUrl(jobId)[|p|] == 'v' && InstrumentalUrl(jobId)[|p|] == 'n';
  }

  /**
   The URLs of the success response name `.wav` files, whereas the command asks
   the worker for mp3 output: neither URL names the `.mp3` file of the same stem.
   */
  lemma UrlsAreNotMp3Output(cwd: string, jobId: string)
    ensures var v, i := VocalsUrl(jobId), InstrumentalUrl(jobId);
            |v| >= 4 && v[|v| - 4..] == ".wav" && |i| >= 4 && i[|i| - 4..] == ".wav"
    ensures Join(cwd, "public") + VocalsUrl(jobId) != StemPath(cwd, jobId, "vocals.mp3")
    ensures Join(cwd, "public") + InstrumentalUrl(jobId) != StemPath(cwd, jobId, "no_vocals.mp3")
  {
    UrlsNameStemPaths(cwd, jobId);
    var v, i := StemPath(cwd, jobId, "vocals.wav"), StemPath(cwd, jobId, "no_vocals.wav");
    assert v[|v| - 1] == 'v' && StemPath(cwd, jobId, "vocals.mp3")[|v| - 1] == '3';
    assert i[|i| - 1] == 'v' && StemPath(cwd, jobId, "no_vocals.mp3")[|i| - 1] == '3';
  }
}
