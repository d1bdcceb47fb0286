/**
 The privileged half of an upgrade: one run over an untrusted handoff directory, in
 which any step may fail and the process may die anywhere, and histories of such
 runs (internal/upgrade/apply.go, internal/upgrade/handoff.go).
 */
module Applier {
  import opened Checksums
  import opened SemVer
  import opened Text

  const MAX_BINARY_BYTES := 256 * 1024 * 1024

  /** What the model does not define: the hash, the archive format, what a binary
      prints first when asked for its version, and the release platform. */
  datatype Host = Host(
    hash: string -> string,
    extract: string -> Option<string>,
    reports: string -> string,
    os: string,
    arch: string)

  /** A handoff request as far as its JSON decoding goes. */
  datatype RawRequest = RawRequest(decodes: bool, tag: string, from: string, requestedAtParses: bool)

  datatype Status = Succeeded | RestartRequired | Failed

  datatype Outcome = Outcome(status: Status, tag: string, from: string)

  /** The files a run can touch: the handoff directory's request and result, the
      install path, its rollback copy, and extracted binaries by release tag. */
  datatype Disk = Disk(
    request: Option<RawRequest>,
    result: Option<Outcome>,
    install: string,
    backup: Option<string>,
    temps: map<string, string>)

  /** Where in a run the process dies. */
  datatype Moment =
    | Never | AfterRemove | AfterClear | MidExtract | AfterExtract
    | AfterBackup | AfterSwap | AfterRestart | BeforeRefusal

  /** What one run meets: failures, the checksums document it downloads itself, the
      bytes it reads through its one handle on the staged archive, and its death. */
  datatype Run = Run(
    stateDirSafe: bool,
    removeFails: bool,
    installPathOk: bool,
    checksums: Option<string>,
    archive: Option<string>,
    clearFails: bool,
    readFails: bool,
    partial: string,
    binaryRuns: bool,
    backupFails: bool,
    renameFails: bool,
    restartFails: bool,
    resultFails: bool,
    dies: Moment)

  // ---------- inputs ----------

  /** The stable version a request asks for; None when it does not validate. */
  function RequestedVersion(raw: RawRequest): Option<Version> {
    if !raw.decodes then None
    else
      match ReleaseTag(TrimSpace(raw.tag))
      case Err => None
      case Ok(v) =>
        if !v.IsStable() then None
        else if TrimSpace(raw.from) != "" && Parse(TrimSpace(raw.from)).Err? then None
        else if !raw.requestedAtParses then None
        else Some(v)
  }

  predicate Supported(host: Host) {
    host.os == "linux" && (host.arch == "amd64" || host.arch == "arm64")
  }

  function ArchiveName(host: Host, target: Version): string {
    "oberwatch_" + Core(target) + "_" + host.os + "_" + host.arch + ".tar.gz"
  }

  /** The digest the release publishes for the archive, from the run's own download. */
  function PublishedDigest(host: Host, run: Run, target: Version): Option<string> {
    if !target.IsStable() || !Supported(host) || run.checksums.None? then None
    else
      match ParseDocument(run.checksums.value)
      case Err => None
      case Ok(sums) => if ArchiveName(host, target) in sums then Some(sums[ArchiveName(host, target)]) else None
  }

  predicate ReportsVersion(host: Host, binary: string, v: Version) {
    host.reports(binary) == "oberwatch " + Tag(v)
  }

  function RollbackCopy(binary: string): string {
    if |binary| <= MAX_BINARY_BYTES then binary else binary[..MAX_BINARY_BYTES]
  }

  // ---------- what a run promises ----------

  /** The archive, read to its end, hashes to the digest, and its binary runs and reports the target. */
  predicate Attested(host: Host, run: Run, binary: string, target: Version, digest: string, archive: string) {
    && !run.readFails && DigestsMatch(digest, host.hash(archive))
    && run.binaryRuns && ReportsVersion(host, binary, target)
  }

  /** The archive holds a binary, and both are what the release published. */
  predicate Genuine(host: Host, run: Run, target: Version, digest: string, archive: string) {
    && host.extract(archive).Some?
    && Attested(host, run, host.extract(archive).value, target, digest, archive)
  }

  predicate DiesExtracting(run: Run) {
    run.dies == AfterClear || run.dies == MidExtract || run.dies == AfterExtract
  }

  /** Nothing goes wrong between opening the archive and the swap. */
  predicate Undisturbed(run: Run) {
    && !run.clearFails && !run.backupFails && !run.renameFails
    && !DiesExtracting(run) && run.dies != AfterBackup
  }

  /** The run reaches the swap for this target. */
  predicate Passes(host: Host, installed: Version, run: Run, target: Version) {
    && Compare(target, installed) > 0
    && run.installPathOk
    && PublishedDigest(host, run, target).Some?
    && run.archive.Some?
    && Genuine(host, run, target, PublishedDigest(host, run, target).value, run.archive.value)
    && Undisturbed(run)
  }

  /** A valid request is waiting, it is consumed, and its target passes every check. */
  predicate Installs(host: Host, installed: Version, run: Run, before: Disk) {
    && run.stateDirSafe && !run.removeFails && run.dies != AfterRemove
    && before.request.Some?
    && RequestedVersion(before.request.value).Some?
    && Passes(host, installed, run, RequestedVersion(before.request.value).value)
  }

  /** What one attempt leaves behind. The install path changes exactly when the swap is
      reached: then it holds the whole extracted binary and the old one is kept for
      rollback. A failure is recorded only when nothing was installed. */
  ghost predicate Attempted(host: Host, run: Run, swaps: bool, target: Version, from: string,
                            before: Disk, after: Disk, died: bool) {
    && after.request == before.request
    && (swaps ==> run.archive.Some? && host.extract(run.archive.value) == Some(after.install))
    && (swaps ==> after.backup == Some(RollbackCopy(before.install)))
    && (!swaps ==> after.install == before.install)
    && (after.backup == before.backup || after.backup == Some(RollbackCopy(before.install)))
    && after.result
       == (if died || run.resultFails then before.result else Some(Outcome(StatusOf(run, swaps), Tag(target), from)))
    && (!died ==> after.temps.Keys <= before.temps.Keys)
    && (run.dies == Never ==> !died)
  }

  function StatusOf(run: Run, swaps: bool): Status {
    if !swaps then Failed else if run.restartFails then RestartRequired else Succeeded
  }

  /** Whose name the outcome carries: the target's, or the installed version's when
      the request never became one. */
  function OutcomeTarget(installed: Version, run: Run, raw: RawRequest): Version {
    if RequestedVersion(raw).None? || run.removeFails then installed else RequestedVersion(raw).value
  }

  function OutcomeFrom(raw: RawRequest): string {
    if RequestedVersion(raw).None? then "" else raw.from
  }

  /** What one run leaves behind. */
  ghost predicate Applied(host: Host, installed: Version, run: Run, before: Disk, after: Disk, died: bool) {
    if !run.stateDirSafe || before.request.None? then after == before && !died
    else
      var raw := before.request.value;
      var consumed := before.(request := if run.removeFails then before.request else None);
      Attempted(host, run, Installs(host, installed, run, before), OutcomeTarget(installed, run, raw), OutcomeFrom(raw),
                consumed, after, died)
  }

  class Applier {
    const host: Host
    const installed: Version
    var request: Option<RawRequest>
    var result: Option<Outcome>
    var install: string
    var backup: Option<string>
    var temps: map<string, string>

    ghost function Files(): Disk
      reads this
    {
      Disk(request, result, install, backup, temps)
    }

    constructor (host: Host, installed: Version, disk: Disk)
      ensures this.host == host && this.installed == installed && Files() == disk
    {
      this.host, this.installed := host, installed;
      request, result, install, backup, temps := disk.request, disk.result, disk.install, disk.backup, disk.temps;
    }

    /** Gives up before the swap and records why no binary was installed. */
    method Refuse(run: Run, target: Version, from: string) returns (died: bool)
      modifies this`result
      ensures died == (run.dies == BeforeRefusal)
      ensures result == if died || run.resultFails then old(result) else Some(Outcome(Failed, Tag(target), from))
    {
      if run.dies == BeforeRefusal {
        return true;
      }
      if !run.resultFails {
        result := Some(Outcome(Failed, Tag(target), from));
      }
      return false;
    }

    /** Extracts the target's binary beside the install path, hashing the same bytes,
        and keeps it only if the digest matches and it reports the target. */
    method ExtractVerifiedBinary(run: Run, target: Version, path: string, digest: string, archive: string)
      returns (binary: Option<string>, died: bool)
      modifies this`temps
      ensures died ==> DiesExtracting(run)
      ensures binary == if !run.clearFails && !DiesExtracting(run) && Genuine(host, run, target, digest, archive)
                        then host.extract(archive) else None
      ensures binary.Some? ==> !died && temps == old(temps)[path := binary.value]
      ensures binary.None? && !died ==> temps.Keys <= old(temps).Keys
    {
      if run.clearFails {
        return None, false;
      }
      temps := temps - {path};
      if run.dies == AfterClear {
        return None, true;
      }
      if run.dies == MidExtract {
        temps := temps[path := run.partial];
        return None, true;
      }
      var extracted := host.extract(archive);
      if extracted.None? {
        return None, run.dies == AfterExtract;
      }
      temps := temps[path := extracted.value];
      if run.dies == AfterExtract {
        return None, true;
      }
      if !Attested(host, run, extracted.value, target, digest, archive) {
        temps := temps - {path};
        return None, false;
      }
      return extracted, false;
    }

    /** From the open archive to the recorded outcome. */
    method Swap(run: Run, target: Version, from: string, digest: string, archive: string) returns (died: bool)
      requires run.archive == Some(archive)
      modifies this
      ensures Attempted(host, run, Undisturbed(run) && Genuine(host, run, target, digest, archive), target, from,
                        old(Files()), Files(), died)
    {
      var path := Tag(target);
      var binary;
      binary, died := ExtractVerifiedBinary(run, target, path, digest, archive);
      if died {
        return;
      }
      if binary.None? {
        died := Refuse(run, target, from);
        return;
      }
      died := Replace(run, target, from, path);
    }

    /** Keeps the rollback copy, renames the extracted binary over the install path,
        restarts the service and records the outcome. */
    method Replace(run: Run, target: Version, from: string, path: string) returns (died: bool)
      requires path in temps
      modifies this
      ensures var swaps := !run.backupFails && !run.renameFails && run.dies != AfterBackup;
              && request == old(request)
              && install == (if swaps then old(temps)[path] else old(install))
              && (swaps ==> backup == Some(RollbackCopy(old(install))))
              && (backup == old(backup) || backup == Some(RollbackCopy(old(install))))
              && result == (if died || run.resultFails then old(result)
                            else Some(Outcome(StatusOf(run, swaps), Tag(target), from)))
              && (!died ==> temps == old(temps) - {path})
              && (run.dies == Never ==> !died)
    {
      if run.backupFails {
        temps := temps - {path};
        died := Refuse(run, target, from);
        return;
      }
      backup := Some(RollbackCopy(install));
      if run.dies == AfterBackup {
        return true;
      }
      if run.renameFails {
        temps := temps - {path};
        died := Refuse(run, target, from);
        return;
      }
      install, temps := temps[path], temps - {path};
      if run.dies == AfterSwap || run.dies == AfterRestart {
        return true;
      }
      if !run.resultFails {
        result := Some(Outcome(StatusOf(run, true), Tag(target), from));
      }
      return false;
    }

    /** The checks before the archive is touched. */
    method Upgrade(run: Run, target: Version, from: string) returns (died: bool)
      modifies this
      ensures Attempted(host, run, Passes(host, installed, run, target), target, from, old(Files()), Files(), died)
    {
      if Compare(target, installed) <= 0 || !run.installPathOk {
        died := Refuse(run, target, from);
        return;
      }
      var digest := PublishedDigest(host, run, target);
      if digest.None? || run.archive.None? {
        died := Refuse(run, target, from);
        return;
      }
      died := Swap(run, target, from, digest.value, run.archive.value);
    }

    /** Installs the waiting request, or leaves the install path as it was. */
    method Apply(run: Run) returns (died: bool)
      modifies this
      ensures Applied(host, installed, run, old(Files()), Files(), died)
    {
      if !run.stateDirSafe || request.None? {
        return false;
      }
      var raw := request.value;
      var requested := RequestedVersion(raw);
      if !run.removeFails {
        request := None;
        if run.dies == AfterRemove {
          return true;
        }
      }
      if requested.None? {
        died := Refuse(run, installed, "");
        return;
      }
      if run.removeFails {
        died := Refuse(run, installed, raw.from);
        return;
      }
      died := Upgrade(run, requested.value, raw.from);
    }
  }
}
