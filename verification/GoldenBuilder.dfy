/** The golden builder step by step on its image store; each method does what its section function says. */
module GoldenBuilder {
  import opened Wrappers
  import S = GoldenSections

  class Builder {
    var images: map<S.Name, S.Disk>
    var clock: nat
    const env: S.Env

    ghost function World(): S.World
      reads this
    {
      S.World(images, clock)
    }

    constructor (env: S.Env, images: map<S.Name, S.Disk>)
      ensures this.env == env && World() == S.World(images, 0)
    {
      this.env, this.images, this.clock := env, images, 0;
    }

    /** One substrate call that changes no image. */
    method Call() returns (ok: bool)
      modifies this
      ensures World() == S.Tick(old(World())) && ok == env.ok(old(clock))
    {
      ok := env.ok(clock);
      clock := clock + 1;
    }

    method Delete(name: S.Name)
      modifies this
      ensures World() == S.Delete(env, old(World()), name)
    {
      var ok := Call();
      if ok { images := images - {name}; }
    }

    method Clone(source: S.Name, name: S.Name) returns (ok: bool)
      modifies this
      ensures (World(), ok) == S.Clone(env, old(World()), source, name)
    {
      ok := Call();
      if !ok || source !in images { return false; }
      images := images[name := images[source]];
    }

    method CloneBase(source: S.Name, name: S.Name) returns (ok: bool)
      modifies this
      ensures (World(), ok) == S.CloneBase(env, old(World()), source, name)
    {
      if source in images {
        ok := Clone(source, name);
      } else {
        ok := Call();
        if ok { images := images[name := env.pulled(clock - 1)]; }
      }
    }

    method Teardown(name: S.Name)
      modifies this
      ensures World() == S.Teardown(env, old(World()), name)
    {
      var _ := Call();
      Delete(name);
    }

    method CloneAndBoot(source: S.Name, name: S.Name, base: bool) returns (ok: bool)
      modifies this
      ensures (World(), ok) == S.CloneAndBoot(env, old(World()), source, name, base)
    {
      Delete(name);
      if base { ok := CloneBase(source, name); } else { ok := Clone(source, name); }
      if !ok { return false; }
      var started := Call();
      if !started {
        Teardown(name);
        return false;
      }
      var ready := Call();
      if !ready {
        Teardown(name);
        return false;
      }
    }

    /** One check in the booted guest: it passes when the call succeeds and the fact holds. */
    method Check(fact: bool, ghost rest: seq<bool>) returns (ok: bool)
      modifies this
      ensures images == old(images)
      ensures S.Checks(env, old(World()), [fact] + rest) == if ok then S.Checks(env, World(), rest) else (World(), false)
    {
      assert ([fact] + rest)[1..] == rest;
      ok := Call();
      ok := ok && fact;
    }

    method VerifyBooted(vm: S.Name, fingerprint: string, r: S.Receipt) returns (ok: bool)
      requires vm in images
      modifies this
      ensures (World(), ok) == S.VerifyBooted(env, old(World()), vm, fingerprint, r)
    {
      var d := images[vm];
      var facts := [true, true, d.runner, d.fingerprint != "" && d.fingerprint == fingerprint, S.ReceiptIs(d, r),
                    d.plist, d.unitLoads, !d.watchdog, d.xcode];
      for i := 0 to |facts|
        invariant images == old(images)
        invariant S.VerifyBooted(env, old(World()), vm, fingerprint, r) == S.Checks(env, World(), facts[i..])
      {
        assert facts[i..] == [facts[i]] + facts[i + 1..];
        ok := Check(facts[i], facts[i + 1..]);
        if !ok { return; }
      }
      ok := true;
    }

    method Verify(image: S.Name, verifyVM: S.Name, fingerprint: string, r: S.Receipt) returns (ok: bool)
      modifies this
      ensures (World(), ok) == S.Verify(env, old(World()), image, verifyVM, fingerprint, r)
    {
      var booted := CloneAndBoot(image, verifyVM, false);
      if !booted || verifyVM !in images { return false; }
      ok := VerifyBooted(verifyVM, fingerprint, r);
      Teardown(verifyVM);
    }

    method Snapshot(build: S.Name, image: S.Name) returns (ok: bool)
      modifies this
      ensures (World(), ok) == S.Snapshot(env, old(World()), build, image)
    {
      Delete(image);
      ok := Clone(build, image);
      if !ok { return; }
      Delete(build);
    }

    method Promote(staging: S.Name, golden: S.Name) returns (ok: bool)
      modifies this
      ensures (World(), ok) == S.Promote(env, old(World()), staging, golden)
    {
      Delete(golden);
      ok := Clone(staging, golden);
      if !ok { return; }
      Delete(staging);
    }

    method Provision(name: S.Name) returns (ok: bool)
      requires name in images
      modifies this
      ensures (World(), ok) == S.Provision(env, old(World()), name)
    {
      ok := Call();
      images := images[name := env.provisioned(clock - 1)];
    }

    method Prepare(o: S.Options) returns (ok: bool)
      modifies this
      ensures (World(), ok) == S.Prepare(env, old(World()), o)
    {
      var booted := CloneAndBoot(o.image, o.buildVM, true);
      if !booted || o.buildVM !in images { return false; }
      var provisioned := Provision(o.buildVM);
      if !provisioned {
        Teardown(o.buildVM);
        return false;
      }
      ok := Call();
      if !ok { Teardown(o.buildVM); }
    }

    method StageInputs(o: S.Options) returns (inputs: Option<(string, S.Receipt)>)
      modifies this
      ensures (World(), inputs) == S.StageInputs(env, old(World()), o)
    {
      var ok := Call();
      if !ok { return None; }
      var version := if o.runnerVersion == "" then env.latest else o.runnerVersion;
      var r := S.Receipt(version, env.tarball(version));
      inputs := Some((env.fingerprint(o.image, env.binaryDigest, r), r));
    }

    method Build(o: S.Options) returns (ok: bool, ghost b: S.Built)
      modifies this
      ensures b == S.Build(env, old(World()), o) && World() == b.w && ok == b.ok
    {
      b := S.Build(env, World(), o);
      var inputs := StageInputs(o);
      if inputs.None? { return false, b; }
      var (fingerprint, r) := inputs.value;
      var staging := o.golden + S.STAGING_SUFFIX;
      var prepared := Prepare(o);
      if !prepared { return false, b; }
      var snapped := Snapshot(o.buildVM, staging);
      if !snapped { return false, b; }
      var good := Verify(staging, o.buildVM + S.VERIFY_SUFFIX, fingerprint, r);
      if !good {
        Teardown(staging);
        return false, b;
      }
      ok := Promote(staging, o.golden);
    }

    method CheckBooted(vm: S.Name, image: string, runnerVersion: string) returns (ok: bool)
      requires vm in images
      modifies this
      ensures (World(), ok) == S.CheckBooted(env, old(World()), vm, image, runnerVersion)
    {
      var receipt := images[vm].receipt;
      var called := Call();
      if !called || receipt.None? || !S.ValidReceipt(receipt.value) { return false; }
      if runnerVersion != "" && runnerVersion != receipt.value.version { return false; }
      var digested := Call();
      if !digested { return false; }
      var expected := env.fingerprint(image, env.binaryDigest, receipt.value);
      ok := VerifyBooted(vm, expected, receipt.value);
    }

    method CheckCached(golden: S.Name, image: string, runnerVersion: string) returns (ok: bool)
      modifies this
      ensures (World(), ok) == S.CheckCached(env, old(World()), golden, image, runnerVersion)
    {
      var probe := golden + S.PROBE_SUFFIX + env.rand(clock);
      var booted := CloneAndBoot(golden, probe, false);
      ok := false;
      if booted && probe in images { ok := CheckBooted(probe, image, runnerVersion); }
      Teardown(probe);
    }

    method Ensure(golden: S.Name, image: string, buildVM: S.Name, runnerVersion: string)
      returns (ok: bool, ghost b: Option<S.Built>)
      modifies this
      ensures S.Ensured(World(), ok, b) == S.Ensure(env, old(World()), golden, image, buildVM, runnerVersion)
    {
      if image == "" { return false, None; }
      var listed := Call();
      if !listed { return false, None; }
      if golden in images {
        var current := CheckCached(golden, image, runnerVersion);
        if current { return true, None; }
      }
      ghost var built;
      ok, built := Build(S.BuildOptions(golden, image, buildVM, runnerVersion));
      b := Some(built);
    }
  }
}
