// The streams that tasks/log_stream_monitor/setup.py can draw: each has one critical entry,
// and none of its noise is taken for one.
module LogStreamSetup {
  import opened Text
  import opened LogStreamRuns
  import Network

  const NOISE_TEMPLATES: seq<string> := [
    "INFO boot sequence started",
    "INFO health check passed",
    "WARN queue depth {n} " + "approaching threshold",
    "INFO telemetry upload complete",
    "ERROR transient timeout on " + "replica {n} (non-critical)",
    "WARN retry window " + "extended to {n}s",
    "INFO cache warmed successfully",
    "ERROR connection reset " + "by peer (transient)"
  ]

  // template.format(n=n)
  function NoiseEntry(template: string, n: nat): string
  {
    Replace(template, "{n}", NatText(n))
  }

  // The template and the number of one noise entry.
  datatype Noise = Noise(choice: nat, n: nat)

  // What setup draws: the number of the code, the critical page (from 0), the place of the
  // critical entry on it, and the noise of each page.
  datatype Draws = Draws(number: nat, critical: nat, place: nat, noise: seq<seq<Noise>>)
  {
    predicate Valid()
    {
      && 100 <= number <= 999
      && 4 <= |noise| <= 6
      && (forall i | 0 <= i < |noise| :: PageDrawn(noise[i]))
      && critical < |noise| && place <= |noise[critical]|
    }

    function Code(): string
    {
      "SC-" + NatText(number)
    }

    // The entries of a page; entries.insert on the critical one.
    function Page(i: nat): (entries: seq<string>)
      requires Valid() && i < |noise|
    {
      var entries := NoiseEntries(noise[i]);
      if i == critical then entries[..place] + [CriticalEntry(Code())] + entries[place..] else entries
    }

    function Pages(): Stream
      requires Valid()
    {
      seq(|noise|, i requires 0 <= i < |noise| => Page(i))
    }
  }

  predicate PageDrawn(noise: seq<Noise>)
  {
    && 2 <= |noise| <= 4
    && forall k | 0 <= k < |noise| :: noise[k].choice < |NOISE_TEMPLATES| && 1 <= noise[k].n <= 99
  }

  function NoiseEntries(noise: seq<Noise>): seq<string>
    requires PageDrawn(noise)
  {
    seq(|noise|, k requires 0 <= k < |noise| => NoiseEntry(NOISE_TEMPLATES[noise[k].choice], noise[k].n))
  }

  // ---- noise is never critical -----------------------------------------------------------

  // No capital C, as in "CRITICAL", and no line separator.
  predicate Harmless(s: string)
  {
    forall i | 0 <= i < |s| :: s[i] != 'C' && !IsSeparator(s[i])
  }

  lemma {:induction false} ReplaceHarmless(s: string, p: string, r: string)
    requires p != "" && Harmless(s) && Harmless(r)
    ensures Harmless(Replace(s, p, r))
    decreases |s|
  {
    hide Find;
    var i := Find(s, p);
    if i != -1 {
      ReplaceHarmless(s[i + |p|..], p, r);
    }
  }

  lemma InfoHarmless()
    ensures Harmless("INFO boot sequence started") && Harmless("INFO health check passed")
    ensures Harmless("INFO telemetry upload complete") && Harmless("INFO cache warmed successfully")
  {
  }

  lemma WarnHarmless()
    ensures Harmless("WARN queue depth {n} " + "approaching threshold")
    ensures Harmless("WARN retry window " + "extended to {n}s")
  {
    assert Harmless("WARN queue depth {n} ") && Harmless("approaching threshold");
    assert Harmless("WARN retry window ") && Harmless("extended to {n}s");
  }

  lemma ErrorHarmless()
    ensures Harmless("ERROR transient timeout on " + "replica {n} (non-critical)")
    ensures Harmless("ERROR connection reset " + "by peer (transient)")
  {
    assert Harmless("ERROR transient timeout on ") && Harmless("replica {n} (non-critical)");
    assert Harmless("ERROR connection reset ") && Harmless("by peer (transient)");
  }

  lemma TemplatesHarmless(choice: nat)
    requires choice < |NOISE_TEMPLATES|
    ensures Harmless(NOISE_TEMPLATES[choice])
  {
    InfoHarmless();
    WarnHarmless();
    ErrorHarmless();
    hide Harmless;
  }

  // Noise is harmless whatever number it is given.
  lemma NoiseQuiet(choice: nat, n: nat)
    requires choice < |NOISE_TEMPLATES|
    ensures Find(NoiseEntry(NOISE_TEMPLATES[choice], n), "CRITICAL") == -1
    ensures OneLine(NoiseEntry(NOISE_TEMPLATES[choice], n))
  {
    hide NOISE_TEMPLATES, Find, Replace, NatText;
    TemplatesHarmless(choice);
    assert forall d <- NatText(n) :: IsDigit(d);
    ReplaceHarmless(NOISE_TEMPLATES[choice], "{n}", NatText(n));
    Network.NotFound(NoiseEntry(NOISE_TEMPLATES[choice], n), "CRITICAL");
  }

  // Every stream setup can draw has the critical entry where it was drawn, with only noise
  // on the pages and in the entries before it.
  lemma SetupPlants(d: Draws)
    requires d.Valid()
    ensures Planted(d.Pages(), d.critical, d.Code())
  {
    hide Find, CriticalEntry, NatText, NoiseEntry, NOISE_TEMPLATES;
    var pages, c := d.Pages(), d.critical;
    forall i, k | 0 <= i <= c && 0 <= k < |pages[i]| && (i == c ==> k < d.place) ensures Find(pages[i][k], "CRITICAL") == -1 {
      assert PageDrawn(d.noise[i]) && pages[i] == d.Page(i);
      NoiseQuiet(d.noise[i][k].choice, d.noise[i][k].n);
      assert pages[i][k] == NoiseEntries(d.noise[i])[k];
    }
    assert pages[c] == d.Page(c) && pages[c][d.place] == CriticalEntry(d.Code());
  }

  lemma CodeSafe(d: Draws)
    ensures OneLine(d.Code()) && OneLine(CriticalEntry(d.Code()))
  {
    hide NatText;
    assert forall c <- NatText(d.number) :: IsDigit(c);
    assert OneLine("SC-") && OneLine("CRITICAL ") && OneLine("ingest_failure ") && OneLine("STREAM_CODE=");
  }

  // None of these streams puts a line separator into a run.
  lemma SetupSafe(d: Draws)
    requires d.Valid()
    ensures StreamSafe(d.Pages())
  {
    hide Find, CriticalEntry, NatText, NoiseEntry, NOISE_TEMPLATES, OneLine;
    CodeSafe(d);
    var pages := d.Pages();
    forall i, k | 0 <= i < |pages| && 0 <= k < |pages[i]| ensures OneLine(pages[i][k]) {
      EntrySafe(d, i, k);
    }
    SetupPlants(d);
    PlantedCode(pages, d.critical, d.Code());
  }

  lemma EntrySafe(d: Draws, i: nat, k: nat)
    requires d.Valid() && i < |d.noise| && k < |d.Page(i)|
    ensures OneLine(d.Page(i)[k])
  {
    hide Find, CriticalEntry, NatText, NoiseEntry, NOISE_TEMPLATES, OneLine;
    CodeSafe(d);
    assert PageDrawn(d.noise[i]);
    var at := if i == d.critical && k > d.place then k - 1 else k;
    if i != d.critical || k != d.place {
      NoiseQuiet(d.noise[i][at].choice, d.noise[i][at].n);
      assert d.Page(i)[k] == NoiseEntries(d.noise[i])[at];
    }
  }
}
