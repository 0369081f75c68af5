/**
 The golden build as functions on a store of named VM images. Every substrate call takes one tick of
 the clock, and the environment decides by tick whether the call fails; a failing call leaves the
 store alone.
 */
module GoldenSections {
  import opened Wrappers

  type Name = string

  datatype Receipt = Receipt(version: string, tarballDigest: string)

  /** What a VM's disk holds, as far as the build looks at it; `serial` tells disks apart. */
  datatype Disk = Disk(
    fingerprint: string, receipt: Option<Receipt>, runner: bool, plist: bool, unitLoads: bool,
    watchdog: bool, xcode: bool, serial: nat)

  datatype World = World(images: map<Name, Disk>, clock: nat)

  /** `pulled` and `provisioned` give the disks that a base pull and a provisioner run produce. */
  datatype Env = Env(
    ok: nat -> bool, rand: nat -> string, binaryDigest: string, latest: string, tarball: string -> string,
    fingerprint: (string, string, Receipt) -> string, pulled: nat -> Disk, provisioned: nat -> Disk)

  datatype Options = Options(image: string, golden: Name, buildVM: Name, runnerVersion: string)

  const STAGING_SUFFIX := "-staging"
  const VERIFY_SUFFIX := "-verify"
  const BUILD_SUFFIX := "-build"
  const PROBE_SUFFIX := "-fpcheck-"

  // ----- receipts ---------------------------------------------------------------------------

  predicate IsSpace(c: char) {
    c == ' ' || c == '\t' || c == '\n' || c == '\r'
  }

  predicate IsHex(c: char) {
    '0' <= c <= '9' || 'a' <= c <= 'f' || 'A' <= c <= 'F'
  }

  predicate ValidReceipt(r: Receipt) {
    && r.version != [] && !IsSpace(r.version[0]) && !IsSpace(r.version[|r.version| - 1])
    && |r.tarballDigest| == 64 && forall i :: 0 <= i < 64 ==> IsHex(r.tarballDigest[i])
  }

  /** Everything verification demands of an image. */
  predicate Proven(d: Disk, fingerprint: string, r: Receipt) {
    && d.runner && d.fingerprint != "" && d.fingerprint == fingerprint
    && d.receipt == Some(r) && ValidReceipt(r)
    && d.plist && d.unitLoads && !d.watchdog && d.xcode
  }

  // ----- substrate calls --------------------------------------------------------------------

  function Tick(w: World): World {
    w.(clock := w.clock + 1)
  }

  function Delete(env: Env, w: World, name: Name): World {
    if env.ok(w.clock) then Tick(w).(images := w.images - {name}) else Tick(w)
  }

  /** Cloning needs the source image. */
  function Clone(env: Env, w: World, source: Name, name: Name): (World, bool) {
    if env.ok(w.clock) && source in w.images
    then (Tick(w).(images := w.images[name := w.images[source]]), true)
    else (Tick(w), false)
  }

  /** The base may be pulled from a registry when no local image bears its name. */
  function CloneBase(env: Env, w: World, source: Name, name: Name): (World, bool) {
    if source in w.images then Clone(env, w, source, name)
    else if env.ok(w.clock) then (Tick(w).(images := w.images[name := env.pulled(w.clock)]), true)
    else (Tick(w), false)
  }

  function Teardown(env: Env, w: World, name: Name): World {
    Delete(env, Tick(w), name)
  }

  /** Boot and wait for readiness, on a freshly cloned VM. */
  function Boot(env: Env, w: World, name: Name): (World, bool) {
    if !env.ok(w.clock) then (Teardown(env, Tick(w), name), false)
    else if !env.ok(w.clock + 1) then (Teardown(env, Tick(Tick(w)), name), false)
    else (Tick(Tick(w)), true)
  }

  function CloneAndBoot(env: Env, w: World, source: Name, name: Name, base: bool): (World, bool) {
    var w1 := Delete(env, w, name);
    var (w2, cloned) := if base then CloneBase(env, w1, source, name) else Clone(env, w1, source, name);
    if cloned then Boot(env, w2, name) else (w2, false)
  }

  // ----- verification -----------------------------------------------------------------------

  /** Checks run in the guest one after the other; the first that fails ends the sequence. */
  function Checks(env: Env, w: World, facts: seq<bool>): (World, bool)
    decreases |facts|
  {
    if facts == [] then (w, true)
    else if env.ok(w.clock) && facts[0] then Checks(env, Tick(w), facts[1..])
    else (Tick(w), false)
  }

  function ReceiptIs(d: Disk, r: Receipt): bool {
    d.receipt.Some? && ValidReceipt(d.receipt.value) && d.receipt.value == r
  }

  function VerifyBooted(env: Env, w: World, vm: Name, fingerprint: string, r: Receipt): (World, bool)
    requires vm in w.images
  {
    var d := w.images[vm];
    Checks(env, w,
           [true, true, d.runner, d.fingerprint != "" && d.fingerprint == fingerprint, ReceiptIs(d, r),
            d.plist, d.unitLoads, !d.watchdog, d.xcode])
  }

  function Verify(env: Env, w: World, image: Name, verifyVM: Name, fingerprint: string, r: Receipt): (World, bool) {
    var (w1, booted) := CloneAndBoot(env, w, image, verifyVM, false);
    if !booted || verifyVM !in w1.images then (w1, false)
    else
      var (w2, ok) := VerifyBooted(env, w1, verifyVM, fingerprint, r);
      (Teardown(env, w2, verifyVM), ok)
  }

  // ----- build ------------------------------------------------------------------------------

  /** The fingerprint and receipt a new build bakes, or a failure on the host side. */
  function StageInputs(env: Env, w: World, o: Options): (World, Option<(string, Receipt)>) {
    if !env.ok(w.clock) then (Tick(w), None)
    else
      var version := if o.runnerVersion == "" then env.latest else o.runnerVersion;
      var r := Receipt(version, env.tarball(version));
      (Tick(w), Some((env.fingerprint(o.image, env.binaryDigest, r), r)))
  }

  /** The provisioner runs in the guest and changes its disk, also when it fails half way. */
  function Provision(env: Env, w: World, name: Name): (World, bool)
    requires name in w.images
  {
    (Tick(w).(images := w.images[name := env.provisioned(w.clock)]), env.ok(w.clock))
  }

  function Snapshot(env: Env, w: World, build: Name, image: Name): (World, bool) {
    var (w1, cloned) := Clone(env, Delete(env, w, image), build, image);
    if cloned then (Delete(env, w1, build), true) else (w1, false)
  }

  function Promote(env: Env, w: World, staging: Name, golden: Name): (World, bool) {
    var (w1, cloned) := Clone(env, Delete(env, w, golden), staging, golden);
    if cloned then (Delete(env, w1, staging), true) else (w1, false)
  }

  /**
   `verified` is the staging image that passed, `promotion` the tick at which its promotion began, and
   `lost` says that the promotion's clone failed.
   */
  datatype Built = Built(
    w: World, ok: bool, inputs: Option<(string, Receipt)>, verified: Option<Disk>, promotion: Option<nat>, lost: bool)

  /** The scratch VM, provisioned and stopped, is ready to be snapshotted. */
  function Prepare(env: Env, w: World, o: Options): (World, bool) {
    var (w1, booted) := CloneAndBoot(env, w, o.image, o.buildVM, true);
    if !booted || o.buildVM !in w1.images then (w1, false)
    else
      var (w2, provisioned) := Provision(env, w1, o.buildVM);
      if !provisioned then (Teardown(env, w2, o.buildVM), false)
      else if !env.ok(w2.clock) then (Teardown(env, Tick(w2), o.buildVM), false)
      else (Tick(w2), true)
  }

  function Build(env: Env, w: World, o: Options): Built {
    var (w0, inputs) := StageInputs(env, w, o);
    if inputs.None? then Built(w0, false, None, None, None, false)
    else
      var (fingerprint, r) := inputs.value;
      var staging := o.golden + STAGING_SUFFIX;
      var (w1, prepared) := Prepare(env, w0, o);
      if !prepared then Built(w1, false, inputs, None, None, false)
      else
        var (w2, snapped) := Snapshot(env, w1, o.buildVM, staging);
        if !snapped then Built(w2, false, inputs, None, None, false)
        else
          var (w3, good) := Verify(env, w2, staging, o.buildVM + VERIFY_SUFFIX, fingerprint, r);
          if !good then Built(Teardown(env, w3, staging), false, inputs, None, None, false)
          else
            var (w4, promoted) := Promote(env, w3, staging, o.golden);
            Built(w4, promoted, inputs, Lookup(w3, staging), Some(w3.clock), !promoted)
  }

  function Lookup(w: World, name: Name): Option<Disk> {
    if name in w.images then Some(w.images[name]) else None
  }

  // ----- ensure -----------------------------------------------------------------------------

  /** The receipt that a cached golden itself carries decides what its fingerprint has to be. */
  predicate Current(env: Env, d: Disk, image: string, runnerVersion: string) {
    && d.receipt.Some? && ValidReceipt(d.receipt.value)
    && (runnerVersion != "" ==> runnerVersion == d.receipt.value.version)
    && Proven(d, env.fingerprint(image, env.binaryDigest, d.receipt.value), d.receipt.value)
  }

  function CheckBooted(env: Env, w: World, vm: Name, image: string, runnerVersion: string): (World, bool)
    requires vm in w.images
  {
    var receipt := w.images[vm].receipt;
    if !env.ok(w.clock) || receipt.None? || !ValidReceipt(receipt.value) then (Tick(w), false)
    else if runnerVersion != "" && runnerVersion != receipt.value.version then (Tick(w), false)
    else if !env.ok(w.clock + 1) then (Tick(Tick(w)), false)
    else
      VerifyBooted(env, Tick(Tick(w)), vm, env.fingerprint(image, env.binaryDigest, receipt.value), receipt.value)
  }

  function CheckCached(env: Env, w: World, golden: Name, image: string, runnerVersion: string): (World, bool) {
    var probe := golden + PROBE_SUFFIX + env.rand(w.clock);
    var (w1, booted) := CloneAndBoot(env, w, golden, probe, false);
    if !booted || probe !in w1.images then (Teardown(env, w1, probe), false)
    else
      var (w2, ok) := CheckBooted(env, w1, probe, image, runnerVersion);
      (Teardown(env, w2, probe), ok)
  }

  datatype Ensured = Ensured(w: World, ok: bool, built: Option<Built>)

  function BuildOptions(golden: Name, image: string, buildVM: Name, runnerVersion: string): Options {
    Options(image, golden, if buildVM == "" then golden + BUILD_SUFFIX else buildVM, runnerVersion)
  }

  function FromBuild(b: Built): Ensured {
    Ensured(b.w, b.ok, Some(b))
  }

  /** `golden` is the name derived from the image. */
  function Ensure(env: Env, w: World, golden: Name, image: string, buildVM: Name, runnerVersion: string): Ensured {
    var o := BuildOptions(golden, image, buildVM, runnerVersion);
    if image == "" then Ensured(w, false, None)
    else if !env.ok(w.clock) then Ensured(Tick(w), false, None)
    else if golden !in w.images then FromBuild(Build(env, Tick(w), o))
    else
      var (w1, current) := CheckCached(env, Tick(w), golden, image, runnerVersion);
      if current then Ensured(w1, true, None) else FromBuild(Build(env, w1, o))
  }
}
