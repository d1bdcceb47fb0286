/**
 Histories of applier runs over a handoff directory that the unprivileged service may
 rewrite between runs (internal/upgrade/apply.go, internal/upgrade/handoff.go).
 */
module UpgradeHistory {
  import opened Applier
  import Checksums
  import opened SemVer
  import opened Text

  /** One applier run, or any rewriting of the handoff files by the service. */
  datatype Step = Attempt(installed: Version, run: Run, died: bool) | Handoff

  /** A version the parser produced. */
  ghost predicate Parsed(v: Version) {
    exists raw :: Parse(raw) == Ok(v)
  }

  /** The applier is the installed binary, so it is built as the version that binary reports. */
  ghost predicate BuiltAs(host: Host, binary: string, v: Version) {
    ReportsVersion(host, binary, v) && Parsed(v)
  }

  ghost predicate Next(host: Host, before: Disk, step: Step, after: Disk) {
    match step
    case Handoff => after == before.(request := after.request, result := after.result)
    case Attempt(installed, run, died) =>
      BuiltAs(host, before.install, installed) && Applied(host, installed, run, before, after, died)
  }

  ghost predicate History(host: Host, states: seq<Disk>, steps: seq<Step>) {
    && |states| == |steps| + 1
    && forall i :: 0 <= i < |steps| ==> StepAt(host, states, steps, i)
  }

  ghost predicate StepAt(host: Host, states: seq<Disk>, steps: seq<Step>, i: nat)
    requires i < |steps| < |states|
  {
    Next(host, states[i], steps[i], states[i + 1])
  }

  /** The step reaches its swap. */
  predicate Swaps(host: Host, before: Disk, step: Step) {
    step.Attempt? && Installs(host, step.installed, step.run, before)
  }

  ghost predicate SwapAt(host: Host, states: seq<Disk>, steps: seq<Step>, i: nat)
    requires i < |steps| < |states|
  {
    Swaps(host, states[i], steps[i])
  }

  /** Some run before step n reached its swap. */
  ghost predicate SwappedBefore(host: Host, states: seq<Disk>, steps: seq<Step>, n: nat)
    requires n <= |steps| < |states|
  {
    exists i :: 0 <= i < n && SwapAt(host, states, steps, i)
  }

  // ---------- one run ----------

  lemma {:induction false} RequestedIsStable(raw: RawRequest)
    requires RequestedVersion(raw).Some?
    ensures var v := RequestedVersion(raw).value; v.IsStable() && Parsed(v)
  {
    assert Parse(TrimSpace(raw.tag)) == Ok(RequestedVersion(raw).value);
  }

  /** A request asks for the stable version its tag, trimmed, is the tag of; it must decode, carry
      a time, and name no version it came from or one that parses. */
  lemma {:induction false} RequestMeans(raw: RawRequest, v: Version)
    ensures RequestedVersion(raw) == Some(v)
            <==> && raw.decodes && raw.requestedAtParses && v.prerelease == ""
                 && TrimSpace(raw.tag) == Tag(v) && |Tag(v)| <= 64 && WellFormed(v)
                 && (TrimSpace(raw.from) == "" || Parse(TrimSpace(raw.from)).Ok?)
  {
    ParsedTagOfVersion(v);
    if ReleaseTag(TrimSpace(raw.tag)) == Ok(v) {
      TagOfParsedTag(TrimSpace(raw.tag));
    }
  }

  /** Everything the applier checks for itself before it replaces the binary. */
  ghost predicate Trusted(host: Host, installed: Version, run: Run, target: Version, binary: string) {
    && target.IsStable()
    && Compare(target, installed) > 0
    && BuiltAs(host, binary, target)
    && run.archive.Some? && host.extract(run.archive.value) == Some(binary)
    && run.checksums.Some? && Checksums.ParseDocument(run.checksums.value).Ok?
    && var sums := Checksums.ParseDocument(run.checksums.value).value;
       ArchiveName(host, target) in sums && sums[ArchiveName(host, target)] == host.hash(run.archive.value)
  }

  /** The hash is printed in lower-case hexadecimal. */
  ghost predicate PrintsHex(host: Host) {
    forall bytes :: LowerHex(host.hash(bytes))
  }

  predicate LowerHex(digest: string) {
    Checksums.HexDigest(digest) && Checksums.Lower(digest) == digest
  }

  /** The asset a release publishes for the platform, told from its tag. */
  ghost predicate AssetOf(host: Host, target: Version, name: string) {
    && host.os == "linux" && Tag(target) != ""
    && ((host.arch == "amd64" && name == "oberwatch_" + Tag(target)[1..] + "_linux_amd64.tar.gz")
        || (host.arch == "arm64" && name == "oberwatch_" + Tag(target)[1..] + "_linux_arm64.tar.gz"))
  }

  lemma AssetTail(name: string, arch: string, tail: string)
    requires tail == "_linux_" + arch + ".tar.gz"
    ensures name + "_" + "linux" + "_" + arch + ".tar.gz" == name + tail
  {
  }

  lemma {:induction false} AssetNamed(host: Host, target: Version)
    requires target.IsStable() && Supported(host)
    ensures AssetOf(host, target, ArchiveName(host, target))
  {
    assert Tag(target)[1..] == Core(target);
    AssetTail("oberwatch_" + Core(target), "amd64", "_linux_amd64.tar.gz");
    AssetTail("oberwatch_" + Core(target), "arm64", "_linux_arm64.tar.gz");
  }

  lemma {:induction false} PublishedIsListed(host: Host, run: Run, target: Version)
    requires PublishedDigest(host, run, target).Some?
    ensures target.IsStable() && run.checksums.Some? && Checksums.ParseDocument(run.checksums.value).Ok?
    ensures ArchiveName(host, target) in Checksums.ParseDocument(run.checksums.value).value
    ensures Checksums.ParseDocument(run.checksums.value).value[ArchiveName(host, target)]
            == PublishedDigest(host, run, target).value
  {
  }

  /** A run changes the install path only to a strictly newer stable release whose
      archive hashed to the digest that release publishes, and whole. */
  lemma {:induction false} EveryChangeIsVerified(host: Host, installed: Version, run: Run, before: Disk, after: Disk,
                                                 died: bool)
    requires PrintsHex(host)
    requires Applied(host, installed, run, before, after, died)
    ensures Installs(host, installed, run, before) ==>
              Trusted(host, installed, run, RequestedVersion(before.request.value).value, after.install)
    ensures Installs(host, installed, run, before) ==>
              AssetOf(host, RequestedVersion(before.request.value).value,
                      ArchiveName(host, RequestedVersion(before.request.value).value))
    ensures after.install != before.install ==> Installs(host, installed, run, before)
  {
    if Installs(host, installed, run, before) {
      AssetNamed(host, RequestedVersion(before.request.value).value);
      var target := RequestedVersion(before.request.value).value;
      RequestedIsStable(before.request.value);
      PublishedIsListed(host, run, target);
      assert LowerHex(host.hash(run.archive.value));
      Checksums.MatchIsEquality(run.checksums.value, ArchiveName(host, target), host.hash(run.archive.value));
    }
  }

  /** The outcome a run leaves tells the truth: it says failed exactly when nothing was
      installed, and otherwise names the release the install path now reports. */
  lemma {:induction false} OutcomesAreHonest(host: Host, installed: Version, run: Run, before: Disk, after: Disk)
    requires run.stateDirSafe && before.request.Some? && !run.resultFails
    requires Applied(host, installed, run, before, after, false)
    ensures after.result.Some?
    ensures after.result.value.status == Failed <==> !Installs(host, installed, run, before)
    ensures after.result.value.status == Failed ==> after.install == before.install
    ensures after.result.value.status != Failed ==> host.reports(after.install) == "oberwatch " + after.result.value.tag
    ensures after.result.value.status == RestartRequired <==> Installs(host, installed, run, before) && run.restartFails
    ensures var asked := RequestedVersion(before.request.value);
            && after.result.value.tag == (if asked.Some? && !run.removeFails then Tag(asked.value) else Tag(installed))
            && after.result.value.from == (if asked.Some? then before.request.value.from else "")
  {
  }

  /** The rollback copy is the replaced binary exactly when that fits the copy's bound. */
  lemma {:induction false} RollbackIsExact(host: Host, installed: Version, run: Run, before: Disk, after: Disk,
                                           died: bool)
    requires Applied(host, installed, run, before, after, died)
    requires Installs(host, installed, run, before)
    ensures after.backup == Some(before.install) <==> |before.install| <= 268_435_456
  {
  }

  lemma {:induction false} TagsAreSingle(v: Version, w: Version)
    requires Parsed(v) && Parsed(w) && Tag(v) == Tag(w)
    ensures v == w
  {
    var body := TextOfParsed(v);
    var body' := TextOfParsed(w);
    assert (['v'] + body)[1..] == body && (['v'] + body')[1..] == body';
  }

  lemma {:induction false} TextOfParsed(v: Version) returns (body: string)
    requires Parsed(v)
    ensures var (core, prerelease, has) := Cut(body, '-'); ParseBody(core, prerelease, has) == Ok(v)
    ensures Tag(v) == ['v'] + body
  {
    var raw :| Parse(raw) == Ok(v);
    body := if raw[0] == 'v' then raw[1..] else raw;
    ParsedText(body);
  }

  lemma SameReport(host: Host, binary: string, v: Version, w: Version)
    requires BuiltAs(host, binary, v) && BuiltAs(host, binary, w)
    ensures v == w
  {
    var p := "oberwatch ";
    assert (p + Tag(v))[|p|..] == Tag(v);
    assert (p + Tag(w))[|p|..] == Tag(w);
    TagsAreSingle(v, w);
  }

  // ---------- histories ----------

  ghost predicate InstalledBy(host: Host, before: Disk, step: Step, binary: string) {
    Swaps(host, before, step)
    && Trusted(host, step.installed, step.run, RequestedVersion(before.request.value).value, binary)
  }

  ghost predicate InstalledAt(host: Host, states: seq<Disk>, steps: seq<Step>, i: nat, binary: string)
    requires i < |steps| < |states|
  {
    InstalledBy(host, states[i], steps[i], binary)
  }

  ghost predicate InstalledBySomeRun(host: Host, states: seq<Disk>, steps: seq<Step>, n: nat)
    requires n <= |steps| < |states|
  {
    exists i :: 0 <= i < n && InstalledAt(host, states, steps, i, states[n].install)
  }

  /** Before any swap the first binary, and afterwards one that a run verified and installed. */
  ghost predicate VerifiedInstall(host: Host, states: seq<Disk>, steps: seq<Step>, n: nat)
    requires n <= |steps| < |states|
  {
    if SwappedBefore(host, states, steps, n) then InstalledBySomeRun(host, states, steps, n)
    else states[n].install == states[0].install
  }

  lemma {:induction false} StepInstalls(host: Host, states: seq<Disk>, steps: seq<Step>, i: nat)
    requires PrintsHex(host) && History(host, states, steps) && i < |steps|
    ensures if Swaps(host, states[i], steps[i]) then InstalledBy(host, states[i], steps[i], states[i + 1].install)
            else states[i + 1].install == states[i].install
    ensures steps[i].Attempt? ==> BuiltAs(host, states[i].install, steps[i].installed)
  {
    assert StepAt(host, states, steps, i);
    if steps[i].Attempt? {
      EveryChangeIsVerified(host, steps[i].installed, steps[i].run, states[i], states[i + 1], steps[i].died);
    }
  }

  ghost predicate SwapsOrKeeps(host: Host, states: seq<Disk>, steps: seq<Step>, n: nat)
    requires n < |steps| < |states|
  {
    if SwapAt(host, states, steps, n) then InstalledAt(host, states, steps, n, states[n + 1].install)
    else states[n + 1].install == states[n].install
  }

  lemma {:induction false} StepSwaps(host: Host, states: seq<Disk>, steps: seq<Step>, n: nat)
    requires PrintsHex(host) && History(host, states, steps) && n < |steps|
    ensures SwapsOrKeeps(host, states, steps, n)
  {
    StepInstalls(host, states, steps, n);
  }

  lemma {:induction false} InstallStays(host: Host, states: seq<Disk>, steps: seq<Step>, n: nat, next: nat)
    requires n < next == n + 1 <= |steps| < |states|
    requires SwapsOrKeeps(host, states, steps, n) && VerifiedInstall(host, states, steps, n)
    ensures VerifiedInstall(host, states, steps, next)
  {
    SwapsSoFar(host, states, steps, n, next);
    if SwapAt(host, states, steps, n) {
      assert InstalledAt(host, states, steps, n, states[next].install);
    } else {
      SameInstall(host, states, steps, n, next);
    }
  }

  lemma {:induction false} SwapsSoFar(host: Host, states: seq<Disk>, steps: seq<Step>, n: nat, next: nat)
    requires n < next == n + 1 <= |steps| < |states|
    ensures SwappedBefore(host, states, steps, next)
            <==> SwappedBefore(host, states, steps, n) || SwapAt(host, states, steps, n)
  {
    if SwappedBefore(host, states, steps, next) {
      var i :| 0 <= i < next && SwapAt(host, states, steps, i);
      if i != n {
        assert SwappedBefore(host, states, steps, n);
      }
    }
  }

  lemma {:induction false} SameInstall(host: Host, states: seq<Disk>, steps: seq<Step>, n: nat, next: nat)
    requires n < next <= |steps| < |states| && states[next].install == states[n].install
    ensures InstalledBySomeRun(host, states, steps, n) ==> InstalledBySomeRun(host, states, steps, next)
  {
  }

  /** Through any number of runs, failures, crashes and rewritten requests, the install
      path holds the first binary until a swap, and after that the whole binary of an
      archive that was verified against its release. */
  lemma {:induction false} InstallIsAlwaysVerified(host: Host, states: seq<Disk>, steps: seq<Step>, n: nat)
    requires PrintsHex(host) && History(host, states, steps) && n <= |steps|
    ensures VerifiedInstall(host, states, steps, n)
  {
    if n == 0 {
    } else {
      InstallIsAlwaysVerified(host, states, steps, n - 1);
      StepSwaps(host, states, steps, n - 1);
      InstallStays(host, states, steps, n - 1, n);
    }
  }

  /** Extraction refuses a binary over the copy's bound. */
  ghost predicate BoundedExtraction(host: Host) {
    forall archive :: host.extract(archive).Some? ==> |host.extract(archive).value| <= 268_435_456
  }

  /** Through any history, the copy kept by a swap is the whole binary it replaced exactly
      when that binary came from an earlier upgrade or the first one fits the bound. */
  lemma {:induction false} RollbackThroughHistory(host: Host, states: seq<Disk>, steps: seq<Step>, i: nat)
    requires PrintsHex(host) && BoundedExtraction(host) && History(host, states, steps) && i < |steps|
    ensures Swaps(host, states[i], steps[i]) ==>
              (states[i + 1].backup == Some(states[i].install)
               <==> SwappedBefore(host, states, steps, i) || |states[0].install| <= 268_435_456)
  {
    InstallIsAlwaysVerified(host, states, steps, i);
    if SwappedBefore(host, states, steps, i) {
      var j :| 0 <= j < i && InstalledAt(host, states, steps, j, states[i].install);
      InstalledIsBounded(host, states[j], steps[j], states[i].install);
    }
    SwapKeepsCopy(host, states, steps, i);
  }

  lemma {:induction false} InstalledIsBounded(host: Host, before: Disk, step: Step, binary: string)
    requires BoundedExtraction(host) && InstalledBy(host, before, step, binary)
    ensures |binary| <= 268_435_456
  {
    assert host.extract(step.run.archive.value).Some?;
  }

  lemma {:induction false} SwapKeepsCopy(host: Host, states: seq<Disk>, steps: seq<Step>, i: nat)
    requires History(host, states, steps) && i < |steps|
    ensures Swaps(host, states[i], steps[i]) ==>
              (states[i + 1].backup == Some(states[i].install) <==> |states[i].install| <= 268_435_456)
  {
    assert StepAt(host, states, steps, i);
    if Swaps(host, states[i], steps[i]) {
      RollbackIsExact(host, steps[i].installed, steps[i].run, states[i], states[i + 1], steps[i].died);
    }
  }

  // The order argument on its own: binaries that report single versions, and changes
  // that only ever go to a newer one.

  ghost predicate SingleValued(built: (string, Version) -> bool) {
    forall s, v, w :: built(s, v) && built(s, w) ==> v == w
  }

  ghost predicate Transitive(newer: (Version, Version) -> bool) {
    forall u, v, w :: newer(u, v) && newer(v, w) ==> newer(u, w)
  }

  ghost predicate ChangeIsNewer(built: (string, Version) -> bool, newer: (Version, Version) -> bool, was: string,
                                now: string, installed: Version)
  {
    now != was ==> built(was, installed) && forall v :: built(now, v) ==> newer(v, installed)
  }

  lemma {:induction false} ChangesAddUp(binaries: seq<string>, versions: seq<Version>, n: nat, first: Version,
                                        last: Version,
                                        built: (string, Version) -> bool, newer: (Version, Version) -> bool)
    requires n <= |versions| < |binaries|
    requires SingleValued(built) && Transitive(newer)
    requires forall i :: 0 <= i < |versions| ==> ChangeIsNewer(built, newer, binaries[i], binaries[i + 1], versions[i])
    requires built(binaries[0], first) && built(binaries[n], last)
    ensures binaries[n] != binaries[0] ==> newer(last, first)
  {
    if n == 0 {
    } else {
      assert ChangeIsNewer(built, newer, binaries[n - 1], binaries[n], versions[n - 1]);
      if binaries[n] == binaries[n - 1] {
        ChangesAddUp(binaries, versions, n - 1, first, last, built, newer);
      } else {
        ChangesAddUp(binaries, versions, n - 1, first, versions[n - 1], built, newer);
      }
    }
  }

  function BinariesOf(states: seq<Disk>): seq<string> {
    seq(|states|, i requires 0 <= i < |states| => states[i].install)
  }

  function AppliersOf(steps: seq<Step>, unused: Version): seq<Version> {
    seq(|steps|, i requires 0 <= i < |steps| => if steps[i].Attempt? then steps[i].installed else unused)
  }

  ghost function Reporting(host: Host): (string, Version) -> bool {
    (binary, v) => BuiltAs(host, binary, v)
  }

  function Newer(): (Version, Version) -> bool {
    (v, w) => Compare(v, w) > 0
  }

  lemma {:induction false} ReportsAreSingle(host: Host)
    ensures SingleValued(Reporting(host))
  {
    forall s, v, w | Reporting(host)(s, v) && Reporting(host)(s, w) ensures v == w {
      SameReport(host, s, v, w);
    }
  }

  lemma {:induction false} NewerIsTransitive()
    ensures Transitive(Newer())
  {
    forall u, v, w | Newer()(u, v) && Newer()(v, w) ensures Newer()(u, w) {
      NewerThanNewer(w, v, u);
    }
  }

  lemma {:induction false} ChangeGrows(host: Host, states: seq<Disk>, steps: seq<Step>, i: nat, unused: Version)
    requires PrintsHex(host) && History(host, states, steps) && i < |steps|
    ensures ChangeIsNewer(Reporting(host), Newer(), BinariesOf(states)[i], BinariesOf(states)[i + 1],
                          AppliersOf(steps, unused)[i])
  {
    assert BinariesOf(states)[i] == states[i].install && BinariesOf(states)[i + 1] == states[i + 1].install;
    StepInstalls(host, states, steps, i);
    if states[i + 1].install != states[i].install {
      AllNewer(host, states[i], steps[i], states[i + 1].install);
    }
  }

  lemma {:induction false} AllNewer(host: Host, before: Disk, step: Step, binary: string)
    requires InstalledBy(host, before, step, binary)
    ensures forall last :: Reporting(host)(binary, last) ==> Newer()(last, step.installed)
  {
    forall last | Reporting(host)(binary, last) ensures Newer()(last, step.installed) {
      NewerBinary(host, before, step, binary, last);
    }
  }

  lemma {:induction false} NewerBinary(host: Host, before: Disk, step: Step, binary: string, last: Version)
    requires InstalledBy(host, before, step, binary) && BuiltAs(host, binary, last)
    ensures Compare(last, step.installed) > 0
  {
    SameReport(host, binary, last, RequestedVersion(before.request.value).value);
  }

  /** The installed version never decreases: through any history, the install path holds
      the first binary, or one that reports a strictly newer version. */
  lemma {:induction false} VersionsOnlyGrow(host: Host, states: seq<Disk>, steps: seq<Step>, n: nat, first: Version,
                                            last: Version)
    requires PrintsHex(host) && History(host, states, steps) && n <= |steps|
    requires BuiltAs(host, states[0].install, first) && BuiltAs(host, states[n].install, last)
    ensures states[n].install == states[0].install ==> last == first
    ensures states[n].install != states[0].install ==> Compare(last, first) > 0
  {
    ReportsAreSingle(host);
    NewerIsTransitive();
    forall i | 0 <= i < |steps| {
      ChangeGrows(host, states, steps, i, first);
    }
    ChangesAddUp(BinariesOf(states), AppliersOf(steps, first), n, first, last, Reporting(host), Newer());
  }

  lemma {:induction false} NewerThanNewer(a: Version, b: Version, c: Version)
    requires Compare(b, a) > 0 && Compare(c, b) > 0
    ensures Compare(c, a) > 0
  {
    CompareAntisymmetric(b, a);
    CompareAntisymmetric(c, b);
    CompareTransitive(a, b, c);
    CompareAntisymmetric(c, a);
  }

  /** The step takes up a waiting request. */
  predicate TakesUp(before: Disk, step: Step) {
    step.Attempt? && step.run.stateDirSafe && !step.run.removeFails && before.request.Some?
  }

  lemma {:induction false} SwapTakesUp(host: Host, before: Disk, step: Step)
    ensures Swaps(host, before, step) ==> TakesUp(before, step)
  {
  }

  /** A request is taken up at most once: between two runs that take one up, the service
      must have written a new one. */
  lemma {:induction false} OneRunPerRequest(host: Host, states: seq<Disk>, steps: seq<Step>, i: nat, j: nat)
    requires History(host, states, steps) && i < j < |steps|
    requires TakesUp(states[i], steps[i]) && TakesUp(states[j], steps[j])
    ensures exists k :: i < k < j && steps[k].Handoff?
  {
    if forall k :: i < k < j ==> !steps[k].Handoff? {
      RunConsumes(host, states, steps, i);
      RequestStaysConsumed(host, states, steps, i + 1, j);
    }
  }

  /** So between two runs that replace the binary the service must have asked twice. */
  lemma {:induction false} OneSwapPerRequest(host: Host, states: seq<Disk>, steps: seq<Step>, i: nat, j: nat)
    requires History(host, states, steps) && i < j < |steps|
    ensures Swaps(host, states[i], steps[i]) && Swaps(host, states[j], steps[j]) ==>
              exists k :: i < k < j && steps[k].Handoff?
  {
    SwapTakesUp(host, states[i], steps[i]);
    SwapTakesUp(host, states[j], steps[j]);
    if TakesUp(states[i], steps[i]) && TakesUp(states[j], steps[j]) {
      OneRunPerRequest(host, states, steps, i, j);
    }
  }

  lemma {:induction false} RunConsumes(host: Host, states: seq<Disk>, steps: seq<Step>, i: nat)
    requires History(host, states, steps) && i < |steps|
    ensures TakesUp(states[i], steps[i]) ==> states[i + 1].request.None?
    ensures states[i].request.None? && !steps[i].Handoff? ==> states[i + 1].request.None?
  {
    assert StepAt(host, states, steps, i);
  }

  lemma {:induction false} RequestStaysConsumed(host: Host, states: seq<Disk>, steps: seq<Step>, i: nat, j: nat)
    requires History(host, states, steps) && i <= j < |states|
    requires states[i].request.None?
    requires forall k :: i <= k < j ==> !steps[k].Handoff?
    ensures states[j].request.None?
    decreases j - i
  {
    if i == j {
    } else {
      RunConsumes(host, states, steps, i);
      RequestStaysConsumed(host, states, steps, i + 1, j);
    }
  }
}
