/** What a golden build and a golden ensure leave behind, whatever the substrate does. */
module GoldenSafety {
  import opened Wrappers
  import opened GoldenSections

  // ----- frames: g is any image a call does not name ----------------------------------------

  lemma CloneAndBootKeeps(env: Env, w: World, source: Name, name: Name, base: bool, g: Name)
    ensures var (w', booted) := CloneAndBoot(env, w, source, name, base);
      && (g != name ==> Lookup(w', g) == Lookup(w, g))
      && (booted ==> name in w'.images)
      && (booted && !base ==> source in w.images && w'.images[name] == w.images[source])
  {
  }

  lemma {:induction false} ChecksKeep(env: Env, w: World, facts: seq<bool>)
    ensures Checks(env, w, facts).0.images == w.images
    ensures Checks(env, w, facts).1 ==> forall i :: 0 <= i < |facts| ==> facts[i]
    ensures (forall n :: env.ok(n)) && (forall i :: 0 <= i < |facts| ==> facts[i]) ==> Checks(env, w, facts).1
    decreases |facts|
  {
    if facts != [] && env.ok(w.clock) && facts[0] {
      ChecksKeep(env, Tick(w), facts[1..]);
    }
  }

  /** A booted image passes only if it is proven, and a proven one passes unless a call fails. */
  lemma VerifyBootedProves(env: Env, w: World, vm: Name, fingerprint: string, r: Receipt)
    requires vm in w.images
    ensures var (w', ok) := VerifyBooted(env, w, vm, fingerprint, r);
      && w'.images == w.images
      && (ok ==> Proven(w.images[vm], fingerprint, r))
      && ((forall n :: env.ok(n)) && Proven(w.images[vm], fingerprint, r) ==> ok)
    ensures VerifyBooted(env, w, vm, fingerprint, r).1 ==>
              var (d, version, digest) := (w.images[vm], r.version, r.tarballDigest);
              && d.runner && d.plist && d.unitLoads && !d.watchdog && d.xcode
              && d.fingerprint == fingerprint != "" && d.receipt == Some(r)
              && version != "" && version[0] !in " \t\r\n" && version[|version| - 1] !in " \t\r\n"
              && |digest| == 64 && forall i :: 0 <= i < 64 ==> digest[i] in "0123456789abcdefABCDEF"
  {
    var d := w.images[vm];
    var facts := [true, true, d.runner, d.fingerprint != "" && d.fingerprint == fingerprint, ReceiptIs(d, r),
                  d.plist, d.unitLoads, !d.watchdog, d.xcode];
    ChecksKeep(env, w, facts);
    hide Checks, ValidReceipt;
    if VerifyBooted(env, w, vm, fingerprint, r).1 {
      assert facts[2] && facts[3] && facts[4] && facts[5] && facts[6] && facts[7] && facts[8];
    }
  }

  lemma VerifyProves(env: Env, w: World, image: Name, verifyVM: Name, fingerprint: string, r: Receipt, g: Name)
    ensures var (w', ok) := Verify(env, w, image, verifyVM, fingerprint, r);
      && (g != verifyVM ==> Lookup(w', g) == Lookup(w, g))
      && (ok ==> image in w.images && Proven(w.images[image], fingerprint, r))
  {
    CloneAndBootKeeps(env, w, image, verifyVM, false, g);
    var (w1, booted) := CloneAndBoot(env, w, image, verifyVM, false);
    if booted { VerifyBootedProves(env, w1, verifyVM, fingerprint, r); }
    hide CloneAndBoot, VerifyBooted, Proven;
  }

  lemma SnapshotKeeps(env: Env, w: World, build: Name, image: Name, g: Name)
    ensures var (w', ok) := Snapshot(env, w, build, image);
      && (g != build && g != image ==> Lookup(w', g) == Lookup(w, g))
      && (ok ==> build in w.images)
      && (ok && build != image ==> Lookup(w', image) == Some(w.images[build]))
  {
  }

  /**
   Promotion installs the staging image unless its second call, the clone, fails; the golden is then gone
   if its first call, the delete, succeeded, and the old one otherwise.
   */
  lemma PromoteInstalls(env: Env, w: World, staging: Name, golden: Name)
    requires staging != golden
    ensures var (w', ok) := Promote(env, w, staging, golden);
      && (ok ==> staging in w.images && Lookup(w', golden) == Lookup(w, staging))
      && (!ok ==> Lookup(w', golden) == if env.ok(w.clock) then None else Lookup(w, golden))
      && (staging in w.images ==> (ok <==> env.ok(w.clock + 1)))
  {
  }

  lemma PrepareKeeps(env: Env, w: World, o: Options, g: Name)
    requires g != o.buildVM
    ensures Lookup(Prepare(env, w, o).0, g) == Lookup(w, g)
  {
    CloneAndBootKeeps(env, w, o.image, o.buildVM, true, g);
    hide CloneAndBoot;
  }

  // ----- the live golden --------------------------------------------------------------------

  /** Neither scratch VM of the build is the golden itself. */
  predicate Separate(o: Options) {
    o.buildVM != o.golden && o.buildVM + VERIFY_SUFFIX != o.golden
  }

  /**
   After a build the live golden is what it was, or the very staging image that passed verification;
   it is absent without having been absent before only when promotion's clone failed.
   */
  predicate Survives(w: World, b: Built, golden: Name) {
    var after := Lookup(b.w, golden);
    && (after == Lookup(w, golden)
        || (b.ok && after.Some? && after == b.verified)
        || (b.lost && after.None?))
    && (b.ok ==> after.Some? && after == b.verified)
    && (b.lost ==> !b.ok && b.verified.Some?)
    && (b.verified.Some? ==> b.inputs.Some? && Proven(b.verified.value, b.inputs.value.0, b.inputs.value.1))
  }

  /** What a promotion that was reached comes to, call by call; one that was not leaves the golden alone. */
  predicate PromotionDecides(env: Env, w: World, b: Built, golden: Name) {
    if b.promotion.None? then !b.ok && !b.lost && Lookup(b.w, golden) == Lookup(w, golden)
    else
      && b.verified.Some? && (b.ok <==> env.ok(b.promotion.value + 1)) && b.lost == !b.ok
      && (b.lost ==> Lookup(b.w, golden) == if env.ok(b.promotion.value) then None else Lookup(w, golden))
  }

  /** Up to promotion nothing touches the golden; promotion starts from a staging image that passed. */
  lemma BuildUpToPromotion(env: Env, w: World, o: Options) returns (w3: World)
    requires Separate(o)
    ensures var b := Build(env, w, o);
      var staging := o.golden + STAGING_SUFFIX;
      && Lookup(w3, o.golden) == Lookup(w, o.golden)
      && if b.promotion.None? then b == Built(w3, false, b.inputs, None, None, false)
         else
           var (w4, promoted) := Promote(env, w3, staging, o.golden);
           && b == Built(w4, promoted, b.inputs, Lookup(w3, staging), Some(w3.clock), !promoted)
           && b.inputs.Some? && b.verified.Some? && Proven(b.verified.value, b.inputs.value.0, b.inputs.value.1)
  {
    var (w0, inputs) := StageInputs(env, w, o);
    w3 := w0;
    if inputs.Some? {
      var (fingerprint, r) := inputs.value;
      var staging, verifyVM := o.golden + STAGING_SUFFIX, o.buildVM + VERIFY_SUFFIX;
      assert |staging| > |o.golden|;
      assert staging[|staging| - 1] == 'g' && verifyVM[|verifyVM| - 1] == 'y';
      PrepareKeeps(env, w0, o, o.golden);
      var (w1, prepared) := Prepare(env, w0, o);
      w3 := w1;
      hide Prepare, Proven, Promote;
      if prepared {
        SnapshotKeeps(env, w1, o.buildVM, staging, o.golden);
        var (w2, snapped) := Snapshot(env, w1, o.buildVM, staging);
        w3 := w2;
        hide Snapshot;
        if snapped {
          VerifyProves(env, w2, staging, verifyVM, fingerprint, r, o.golden);
          VerifyProves(env, w2, staging, verifyVM, fingerprint, r, staging);
          var (verified, good) := Verify(env, w2, staging, verifyVM, fingerprint, r);
          hide Verify;
          w3 := if good then verified else Teardown(env, verified, staging);
        }
      }
    }
  }

  lemma BuildSurvives(env: Env, w: World, o: Options)
    requires Separate(o)
    ensures Survives(w, Build(env, w, o), o.golden)
    ensures PromotionDecides(env, w, Build(env, w, o), o.golden)
  {
    var w3 := BuildUpToPromotion(env, w, o);
    var staging := o.golden + STAGING_SUFFIX;
    assert |staging| > |o.golden|;
    PromoteInstalls(env, w3, staging, o.golden);
    hide Build, Promote, Proven;
  }

  /**
   Exactly when a failed build costs the golden: it stays as it was if and only if promotion was not
   reached, or promotion's delete failed, or there was no golden; otherwise it is gone. A build that
   reaches promotion fails if and only if promotion's clone, the next call, fails.
   */
  lemma FailedBuildKeepsGoldenIff(env: Env, w: World, o: Options)
    requires Separate(o)
    ensures var b := Build(env, w, o);
      && (b.promotion.Some? ==> b.verified.Some? && (b.ok <==> env.ok(b.promotion.value + 1)) && b.lost == !b.ok)
      && (!b.ok ==>
            (Lookup(b.w, o.golden) == Lookup(w, o.golden) <==>
               b.promotion.None? || !env.ok(b.promotion.value) || Lookup(w, o.golden).None?))
      && (!b.ok && Lookup(b.w, o.golden) != Lookup(w, o.golden) ==> Lookup(b.w, o.golden).None?)
  {
    BuildSurvives(env, w, o);
    hide Build, Proven;
  }

  lemma {:induction false} ChecksPass(env: Env, w: World, facts: seq<bool>)
    requires forall n :: w.clock <= n < w.clock + |facts| ==> env.ok(n)
    requires forall i :: 0 <= i < |facts| ==> facts[i]
    ensures Checks(env, w, facts) == (w.(clock := w.clock + |facts|), true)
    decreases |facts|
  {
    if facts != [] {
      ChecksPass(env, Tick(w), facts[1..]);
    }
  }

  function SomeDigest(): string {
    "0000000000000000000000000000000000000000000000000000000000000000"
  }

  /** A disk that passes every check for this version. */
  function GoodDisk(version: string): Disk {
    Disk("f", Some(Receipt(version, SomeDigest())), true, true, true, false, true, 1)
  }

  /** An environment that builds good disks and in which only the call at tick 26 fails. */
  function FailingAtPromotion(version: string): Env {
    Env(t => t != 26, t => "", "", "1", v => SomeDigest(), (i, b, r) => "f", t => NoDisk(), t => GoodDisk(version))
  }

  function VersionOf(o: Options): string {
    if o.runnerVersion == "" then "1" else o.runnerVersion
  }

  lemma PreparedForPromotion(o: Options)
    requires Separate(o)
    ensures var env := FailingAtPromotion(VersionOf(o));
      var (w, prepared) := Prepare(env, World(map[o.golden := NoDisk()], 1), o);
      prepared && w.clock == 7 && Lookup(w, o.buildVM) == Some(GoodDisk(VersionOf(o)))
  {
    var env := FailingAtPromotion(VersionOf(o));
    var (w, booted) := CloneAndBoot(env, World(map[o.golden := NoDisk()], 1), o.image, o.buildVM, true);
    assert booted && w.clock == 5 && o.buildVM in w.images;
  }

  lemma SnappedForPromotion(env: Env, w: World, build: Name, staging: Name)
    requires forall n :: w.clock <= n < w.clock + 3 ==> env.ok(n)
    requires build in w.images && build != staging
    ensures var (w', snapped) := Snapshot(env, w, build, staging);
      snapped && w'.clock == w.clock + 3 && Lookup(w', staging) == Some(w.images[build])
  {
  }

  lemma VerifiedForPromotion(env: Env, w: World, image: Name, verifyVM: Name, fingerprint: string, r: Receipt)
    requires forall n :: w.clock <= n < w.clock + 15 ==> env.ok(n)
    requires image in w.images && image != verifyVM && Proven(w.images[image], fingerprint, r)
    ensures var (w', good) := Verify(env, w, image, verifyVM, fingerprint, r);
      good && w'.clock == w.clock + 15 && Lookup(w', image) == Lookup(w, image)
  {
    VerifyProves(env, w, image, verifyVM, fingerprint, r, image);
    var (w1, booted) := CloneAndBoot(env, w, image, verifyVM, false);
    assert booted && w1.clock == w.clock + 4 && w1.images[verifyVM] == w.images[image];
    var d := w.images[image];
    ChecksPass(env, w1, [true, true, d.runner, d.fingerprint != "" && d.fingerprint == fingerprint, ReceiptIs(d, r),
                         d.plist, d.unitLoads, !d.watchdog, d.xcode]);
    hide CloneAndBoot, Checks;
  }

  /** The golden can be lost: with separate names and one failing call, the clone of the promotion. */
  lemma PromotionCanLoseTheGolden(o: Options)
    requires Separate(o) && o.buildVM != o.golden + STAGING_SUFFIX && ValidReceipt(Receipt(VersionOf(o), SomeDigest()))
    ensures var w := World(map[o.golden := NoDisk()], 0);
      var b := Build(FailingAtPromotion(VersionOf(o)), w, o);
      !b.ok && b.promotion == Some(25) && Lookup(w, o.golden).Some? && Lookup(b.w, o.golden).None?
  {
    var w := World(map[o.golden := NoDisk()], 0);
    var env := FailingAtPromotion(VersionOf(o));
    var staging, verifyVM := o.golden + STAGING_SUFFIX, o.buildVM + VERIFY_SUFFIX;
    assert staging[|staging| - 1] == 'g' && verifyVM[|verifyVM| - 1] == 'y';
    var r := Receipt(VersionOf(o), SomeDigest());
    assert StageInputs(env, w, o) == (World(w.images, 1), Some(("f", r)));
    PreparedForPromotion(o);
    var w1 := Prepare(env, World(w.images, 1), o).0;
    SnappedForPromotion(env, w1, o.buildVM, staging);
    var w2 := Snapshot(env, w1, o.buildVM, staging).0;
    VerifiedForPromotion(env, w2, staging, verifyVM, "f", r);
    hide Prepare, Snapshot, Verify, StageInputs, ValidReceipt;
    FailedBuildKeepsGoldenIff(env, w, o);
  }

  ghost predicate AlwaysSurvives(o: Options) {
    forall env: Env, w: World :: Survives(w, Build(env, w, o), o.golden)
  }

  /** An environment whose calls succeed before tick n and fail from then on. */
  function FailingFrom(n: nat): Env {
    Env(t => t < n, t => "", "", "", v => "", (i, b, r) => "", t => NoDisk(), t => NoDisk())
  }

  function NoDisk(): Disk {
    Disk("", None, false, false, false, false, false, 0)
  }

  /** A scratch VM that bears the golden's name deletes the golden before anything is built. */
  lemma BuildVmIsGolden(o: Options)
    requires o.buildVM == o.golden
    ensures !Survives(World(map[o.golden := NoDisk()], 0), Build(FailingFrom(2), World(map[o.golden := NoDisk()], 0), o), o.golden)
  {
    var w := World(map[o.golden := NoDisk()], 0);
    var env := FailingFrom(2);
    var w0 := StageInputs(env, w, o).0;
    assert w0 == World(w.images, 1);
    var w1 := Prepare(env, w0, o).0;
    assert Delete(env, w0, o.golden) == World(map[], 2);
    assert !CloneAndBoot(env, w0, o.image, o.golden, true).1;
    assert w1.images == map[];
  }

  /** A verify VM that bears the golden's name deletes the golden before the replacement is proven. */
  lemma VerifyVmIsGolden(o: Options)
    requires o.buildVM + VERIFY_SUFFIX == o.golden
    ensures !Survives(World(map[o.golden := NoDisk()], 0), Build(FailingFrom(11), World(map[o.golden := NoDisk()], 0), o), o.golden)
  {
    var w := World(map[o.golden := NoDisk()], 0);
    var env := FailingFrom(11);
    var staging := o.golden + STAGING_SUFFIX;
    assert |o.buildVM| < |o.golden| < |staging|;
    var w0 := StageInputs(env, w, o).0;
    assert w0.clock == 1;
    var (booting, booted) := CloneAndBoot(env, w0, o.image, o.buildVM, true);
    assert booted && booting.clock == 5 && o.buildVM in booting.images;
    var (w1, prepared) := Prepare(env, w0, o);
    assert prepared && w1.clock == 7 && o.buildVM in w1.images;
    var (w2, snapped) := Snapshot(env, w1, o.buildVM, staging);
    assert snapped && w2.clock == 10;
    var inputs := StageInputs(env, w, o).1;
    var (w3, good) := Verify(env, w2, staging, o.golden, inputs.value.0, inputs.value.1);
    assert !good && Lookup(w3, o.golden).None?;
    hide CloneAndBoot, Prepare, Snapshot, Verify, StageInputs;
    assert Build(env, w, o) == Built(Teardown(env, w3, staging), false, inputs, None, None, false);
  }

  /**
   The live golden survives every pattern of failing calls if and only if neither scratch VM bears its
   name.
   */
  lemma SurvivesIffSeparate(o: Options)
    ensures AlwaysSurvives(o) <==> Separate(o)
  {
    if Separate(o) {
      forall env: Env, w: World
        ensures Survives(w, Build(env, w, o), o.golden)
      {
        BuildSurvives(env, w, o);
      }
    } else if o.buildVM == o.golden {
      BuildVmIsGolden(o);
    } else {
      VerifyVmIsGolden(o);
    }
  }

  /** Every scratch name made by extending the golden's own name is separate, the default one included. */
  lemma ExtendedNamesAreSeparate(golden: Name, image: string, suffix: string, runnerVersion: string)
    requires suffix != ""
    ensures Separate(Options(image, golden, golden + suffix, runnerVersion))
    ensures Separate(BuildOptions(golden, image, "", runnerVersion))
  {
    assert |golden + suffix| > |golden| && |golden + suffix + VERIFY_SUFFIX| > |golden|;
    assert |golden + BUILD_SUFFIX| > |golden| && |golden + BUILD_SUFFIX + VERIFY_SUFFIX| > |golden|;
  }

  // ----- scratch VMs ------------------------------------------------------------------------

  /** The VM that probed a cached golden is gone, unless the last call, which deletes it, failed. */
  lemma ProbeVmIsGone(env: Env, w: World, golden: Name, image: string, runnerVersion: string)
    ensures var (w', ok) := CheckCached(env, w, golden, image, runnerVersion);
      w'.clock > 0 && (golden + PROBE_SUFFIX + env.rand(w.clock) in w'.images ==> !env.ok(w'.clock - 1))
  {
    hide CloneAndBoot, CheckBooted;
  }

  /** So is the VM that verified a staging image, unless its delete at the end, or the one before its clone, failed. */
  lemma VerifyVmIsGone(env: Env, w: World, image: Name, verifyVM: Name, fingerprint: string, r: Receipt)
    ensures var (w', ok) := Verify(env, w, image, verifyVM, fingerprint, r);
      w'.clock > 0 && (verifyVM in w'.images ==> !env.ok(w'.clock - 1) || !env.ok(w.clock))
  {
    hide VerifyBooted;
  }

  /** A scratch VM that could not be prepared is gone under the same condition. */
  lemma FailedScratchIsGone(env: Env, w: World, o: Options)
    ensures var (w', ok) := Prepare(env, w, o);
      !ok ==> w'.clock > 0 && (o.buildVM in w'.images ==> !env.ok(w'.clock - 1) || !env.ok(w.clock))
  {
  }

  /** A staging image that failed verification is gone, unless the last call of the build, its delete, failed. */
  lemma RejectedStagingIsGone(env: Env, w: World, o: Options)
    requires StageInputs(env, w, o).1.Some?
    requires var (w0, inputs) := StageInputs(env, w, o);
      var (w1, prepared) := Prepare(env, w0, o);
      var (w2, snapped) := Snapshot(env, w1, o.buildVM, o.golden + STAGING_SUFFIX);
      prepared && snapped
      && !Verify(env, w2, o.golden + STAGING_SUFFIX, o.buildVM + VERIFY_SUFFIX, inputs.value.0, inputs.value.1).1
    ensures var b := Build(env, w, o);
      && !b.ok && b.w.clock > 0 && (o.golden + STAGING_SUFFIX in b.w.images ==> !env.ok(b.w.clock - 1))
  {
    hide Prepare, Snapshot, Verify, StageInputs;
  }

  // ----- builds that nothing disturbs -------------------------------------------------------

  /** The build's names are four different ones. */
  predicate Apart(o: Options) {
    && Separate(o) && o.buildVM != o.golden + STAGING_SUFFIX && o.buildVM + VERIFY_SUFFIX != o.golden + STAGING_SUFFIX
  }

  /** The receipt a build bakes. */
  function BakedReceipt(env: Env, o: Options): Receipt {
    var version := if o.runnerVersion != "" then o.runnerVersion else env.latest;
    Receipt(version, env.tarball(version))
  }

  /** No call fails, and whatever the provisioner leaves is what verification asks for. */
  ghost predicate Undisturbed(env: Env, o: Options) {
    && (forall n :: env.ok(n))
    && forall n :: Proven(env.provisioned(n), env.fingerprint(o.image, env.binaryDigest, BakedReceipt(env, o)), BakedReceipt(env, o))
  }

  lemma PreparedUndisturbed(env: Env, w: World, o: Options)
    requires forall n :: env.ok(n)
    ensures var (w', prepared) := Prepare(env, w, o);
      prepared && exists n :: Lookup(w', o.buildVM) == Some(env.provisioned(n))
  {
    var (w1, booted) := CloneAndBoot(env, w, o.image, o.buildVM, true);
    assert booted && o.buildVM in w1.images;
    hide CloneAndBoot;
    var (w2, _) := Provision(env, w1, o.buildVM);
    assert Lookup(w2, o.buildVM) == Some(env.provisioned(w1.clock));
  }

  lemma SnappedUndisturbed(env: Env, w: World, build: Name, staging: Name)
    requires (forall n :: env.ok(n)) && build in w.images && build != staging
    ensures var (w', snapped) := Snapshot(env, w, build, staging);
      snapped && Lookup(w', staging) == Some(w.images[build]) && build !in w'.images
  {
  }

  lemma VerifiedUndisturbed(env: Env, w: World, image: Name, verifyVM: Name, fingerprint: string, r: Receipt)
    requires (forall n :: env.ok(n)) && image in w.images && image != verifyVM && Proven(w.images[image], fingerprint, r)
    ensures var (w', good) := Verify(env, w, image, verifyVM, fingerprint, r);
      good && w'.images == w.images - {verifyVM}
  {
    var (w1, booted) := CloneAndBoot(env, w, image, verifyVM, false);
    assert booted && w1.images == w.images[verifyVM := w.images[image]];
    VerifyBootedProves(env, w1, verifyVM, fingerprint, r);
    hide CloneAndBoot, VerifyBooted, Proven;
  }

  lemma PromotedUndisturbed(env: Env, w: World, staging: Name, golden: Name)
    requires (forall n :: env.ok(n)) && staging in w.images && staging != golden
    ensures var (w', promoted) := Promote(env, w, staging, golden);
      && promoted && Lookup(w', golden) == Some(w.images[staging]) && staging !in w'.images
      && forall g :: g != staging && g != golden ==> Lookup(w', g) == Lookup(w, g)
  {
  }

  /**
   A build that nothing disturbs succeeds: the golden is then a disk that the provisioner left, and the
   scratch VM, the staging image and the verify VM are gone.
   */
  lemma UndisturbedBuildDelivers(env: Env, w: World, o: Options)
    requires Apart(o) && Undisturbed(env, o)
    ensures var b := Build(env, w, o);
      && b.ok && (exists n :: Lookup(b.w, o.golden) == Some(env.provisioned(n)))
      && o.buildVM !in b.w.images && o.golden + STAGING_SUFFIX !in b.w.images
      && o.buildVM + VERIFY_SUFFIX !in b.w.images
  {
    var staging, verifyVM := o.golden + STAGING_SUFFIX, o.buildVM + VERIFY_SUFFIX;
    assert |staging| > |o.golden| && |verifyVM| > |o.buildVM|;
    var r := BakedReceipt(env, o);
    var (w0, inputs) := StageInputs(env, w, o);
    assert inputs == Some((env.fingerprint(o.image, env.binaryDigest, r), r));
    PreparedUndisturbed(env, w0, o);
    var w1 := Prepare(env, w0, o).0;
    SnappedUndisturbed(env, w1, o.buildVM, staging);
    var w2 := Snapshot(env, w1, o.buildVM, staging).0;
    VerifiedUndisturbed(env, w2, staging, verifyVM, inputs.value.0, r);
    var w3 := Verify(env, w2, staging, verifyVM, inputs.value.0, r).0;
    PromotedUndisturbed(env, w3, staging, o.golden);
    hide Prepare, Snapshot, Verify, Promote, Proven, StageInputs;
  }

  // ----- ensure -----------------------------------------------------------------------------

  lemma CheckBootedExact(env: Env, w: World, vm: Name, image: string, runnerVersion: string)
    requires vm in w.images
    ensures var (w', ok) := CheckBooted(env, w, vm, image, runnerVersion);
      && w'.images == w.images
      && (ok ==> Current(env, w.images[vm], image, runnerVersion))
      && ((forall n :: env.ok(n)) && Current(env, w.images[vm], image, runnerVersion) ==> ok)
  {
    var receipt := w.images[vm].receipt;
    if receipt.Some? {
      VerifyBootedProves(env, Tick(Tick(w)), vm, env.fingerprint(image, env.binaryDigest, receipt.value), receipt.value);
    }
    hide VerifyBooted, Proven, ValidReceipt;
  }

  /** Probing a cached golden leaves it alone, and passes it only if it is current. */
  lemma CheckCachedExact(env: Env, w: World, golden: Name, image: string, runnerVersion: string)
    requires golden in w.images
    ensures var (w', ok) := CheckCached(env, w, golden, image, runnerVersion);
      && Lookup(w', golden) == Lookup(w, golden)
      && (ok ==> Current(env, w.images[golden], image, runnerVersion))
      && ((forall n :: env.ok(n)) ==> (ok <==> Current(env, w.images[golden], image, runnerVersion)))
  {
    var probe := golden + PROBE_SUFFIX + env.rand(w.clock);
    assert |probe| > |golden|;
    CloneAndBootKeeps(env, w, golden, probe, false, golden);
    var (w1, booted) := CloneAndBoot(env, w, golden, probe, false);
    assert (forall n :: env.ok(n)) ==> booted;
    hide CloneAndBoot, Current;
    if booted { CheckBootedExact(env, w1, probe, image, runnerVersion); }
    hide CheckBooted;
  }

  /** A successful build bakes what a later check will ask for. */
  lemma BuiltIsCurrent(env: Env, w: World, o: Options)
    requires Separate(o) && Build(env, w, o).ok
    ensures var after := Lookup(Build(env, w, o).w, o.golden);
      after.Some? && Current(env, after.value, o.image, o.runnerVersion)
  {
    BuildSurvives(env, w, o);
    InputsFit(env, w, o);
    hide Build, ValidReceipt;
  }

  lemma InputsFit(env: Env, w: World, o: Options)
    ensures Build(env, w, o).inputs.Some? ==>
              var (fingerprint, r) := Build(env, w, o).inputs.value;
              && fingerprint == env.fingerprint(o.image, env.binaryDigest, r)
              && r.version == (if o.runnerVersion != "" then o.runnerVersion else env.latest)
              && r.tarballDigest == env.tarball(r.version)
  {
    hide Prepare, Snapshot, Verify, Promote;
  }

  /**
   A successful ensure leaves a golden that is proven and current, whether it kept or rebuilt it; an
   unsuccessful one leaves the golden as it was, or absent after a failed promotion.
   */
  lemma EnsureMakesCurrent(env: Env, w: World, golden: Name, image: string, buildVM: Name, runnerVersion: string)
    requires Separate(BuildOptions(golden, image, buildVM, runnerVersion))
    ensures var e := Ensure(env, w, golden, image, buildVM, runnerVersion);
      var after := Lookup(e.w, golden);
      && (e.ok ==> after.Some? && Current(env, after.value, image, runnerVersion))
      && (e.built.None? ==> after == Lookup(w, golden))
      && (!e.ok ==> after == Lookup(w, golden) || (e.built.Some? && e.built.value.lost && after.None?))
  {
    var o := BuildOptions(golden, image, buildVM, runnerVersion);
    hide Build, Current, CheckCached, Survives;
    var before := Tick(w);
    if golden in w.images {
      CheckCachedExact(env, before, golden, image, runnerVersion);
      before := CheckCached(env, before, golden, image, runnerVersion).0;
    }
    BuiltIsCurrentOrKept(env, before, o);
  }

  lemma BuiltIsCurrentOrKept(env: Env, w: World, o: Options)
    requires Separate(o)
    ensures var b := Build(env, w, o);
      var after := Lookup(b.w, o.golden);
      && (b.ok ==> after.Some? && Current(env, after.value, o.image, o.runnerVersion))
      && (!b.ok ==> after == Lookup(w, o.golden) || (b.lost && after.None?))
  {
    BuildSurvives(env, w, o);
    if Build(env, w, o).ok { BuiltIsCurrent(env, w, o); }
    hide Build, Current, Separate, Proven;
  }

  /** When no call fails, ensure skips the build exactly for a golden that is already current. */
  lemma ReusedIffCurrent(env: Env, w: World, golden: Name, image: string, buildVM: Name, runnerVersion: string)
    requires image != "" && forall n :: env.ok(n)
    ensures var e := Ensure(env, w, golden, image, buildVM, runnerVersion);
      e.ok && e.built.None? <==> golden in w.images && Current(env, w.images[golden], image, runnerVersion)
  {
    if golden in w.images { CheckCachedExact(env, Tick(w), golden, image, runnerVersion); }
    hide Build, Current, CheckCached;
  }

  /** Repeating a successful ensure does not rebuild: with the same binary it keeps the golden as it is. */
  lemma RepeatingDoesNotRebuild(env: Env, w: World, golden: Name, image: string, buildVM: Name, runnerVersion: string,
                                again: Env)
    requires Separate(BuildOptions(golden, image, buildVM, runnerVersion)) && image != ""
    requires Ensure(env, w, golden, image, buildVM, runnerVersion).ok
    requires again.fingerprint == env.fingerprint && again.binaryDigest == env.binaryDigest && forall n :: again.ok(n)
    ensures var first := Ensure(env, w, golden, image, buildVM, runnerVersion);
      var second := Ensure(again, first.w, golden, image, buildVM, runnerVersion);
      second.ok && second.built.None? && Lookup(second.w, golden) == Lookup(first.w, golden)
  {
    EnsureMakesCurrent(env, w, golden, image, buildVM, runnerVersion);
    var first := Ensure(env, w, golden, image, buildVM, runnerVersion);
    hide Ensure;
    ReusedIffCurrent(again, first.w, golden, image, buildVM, runnerVersion);
    EnsureMakesCurrent(again, first.w, golden, image, buildVM, runnerVersion);
  }
  /** With an image to build from, an ensure that nothing disturbs succeeds. */
  lemma UndisturbedEnsureSucceeds(env: Env, w: World, golden: Name, image: string, buildVM: Name, runnerVersion: string)
    requires image != "" && Apart(BuildOptions(golden, image, buildVM, runnerVersion))
    requires Undisturbed(env, BuildOptions(golden, image, buildVM, runnerVersion))
    ensures Ensure(env, w, golden, image, buildVM, runnerVersion).ok
  {
    var o := BuildOptions(golden, image, buildVM, runnerVersion);
    UndisturbedBuildDelivers(env, Tick(w), o);
    UndisturbedBuildDelivers(env, CheckCached(env, Tick(w), golden, image, runnerVersion).0, o);
    hide Build, CheckCached, Undisturbed, Apart;
    assert env.ok(w.clock) by { OkAlways(env, o, w.clock); }
  }

  lemma OkAlways(env: Env, o: Options, n: nat)
    requires Undisturbed(env, o)
    ensures env.ok(n)
  {
  }
}
