/** Stemcells: reuse by description, upload with alias, predeployed VM, and deletion. */
module Stemcells {
  import opened Names
  import opened World
  import opened Plans
  import opened Placement

  /** `strings.Replace` of the first occurrence, at or after position `i`. */
  function ReplaceFrom(s: string, sub: string, with: string, i: nat): string
    requires i <= |s|
    decreases |s| - i
  {
    if OccursAt(s, sub, i) then s[..i] + with + s[i + |sub|..]
    else if i == |s| then s
    else ReplaceFrom(s, sub, with, i + 1)
  }

  /** `makeStemcellPredeployVMName`. */
  function PredeployName(alias: string): string {
    ReplaceFrom(alias, "img-", "vm-", 0) + "-predeploy"
  }

  lemma PredeployNameOf(uuid: string)
    ensures PredeployName("img-" + uuid) == "vm-" + uuid + "-predeploy"
  {
    var alias := "img-" + uuid;
    assert alias[0..0 + |"img-"|] == "img-";
    assert OccursAt(alias, "img-", 0);
    assert alias[4..] == uuid && alias[..0] == "";
  }

  /** Only the first occurrence is replaced, and without one nothing is. */
  lemma {:induction false} ReplacesFirst(s: string, sub: string, with: string, i: nat, at: nat)
    requires i <= at <= |s| && forall j :: i <= j < at ==> !OccursAt(s, sub, j)
    ensures OccursAt(s, sub, at) ==> ReplaceFrom(s, sub, with, i) == s[..at] + with + s[at + |sub|..]
    ensures at == |s| && !OccursAt(s, sub, at) ==> ReplaceFrom(s, sub, with, i) == s
    decreases at - i
  {
    if i < at { ReplacesFirst(s, sub, with, i + 1, at); }
  }

  /** The "description" property, empty when it is missing. */
  function DescriptionOf(image: Image): string {
    if image.description.Some? then image.description.value else ""
  }

  /** The alias names an image with this description. */
  predicate Describes(w: World, alias: string, text: string) {
    alias in w.aliases && w.aliases[alias] in w.images && DescriptionOf(w.images[w.aliases[alias]]) == text
  }

  /** What `FindExistingImage` may return: an alias of some image so described, or nothing when no
      such image has one. */
  ghost predicate Found(w: World, text: string, existing: string) {
    if existing == "" then forall a :: !Describes(w, a, text) else Describes(w, existing, text)
  }

  /** Each description has at most one aliased image, which has one alias. */
  ghost predicate OneAliasEach(w: World) {
    forall a, b, text :: Describes(w, a, text) && Describes(w, b, text) ==> a == b
  }

  ghost predicate AliasesTarget(w: World) {
    forall a :: a in w.aliases ==> w.aliases[a] in w.images && a != ""
  }

  ghost predicate StemcellsSound(w: World) {
    OneAliasEach(w) && AliasesTarget(w)
  }

  ghost predicate Creates(w: World, uuid: string, existing: string, fingerprint: string, text: string,
                          predeploy: Option<(string, Instance)>, w': World, rest: Plan) {
    Found(w, text, existing) && Runs(w, CreateStemcellPlan(uuid, existing, fingerprint, text, predeploy), w', rest)
  }

  ghost predicate Deletes(w: World, alias: string, w': World, rest: Plan) {
    Runs(w, DeleteStemcellPlan(w, alias, PredeployName(alias)), w', rest)
  }

  /** A sequential step: a `CreateStemcell` or `DeleteStemcell` stopping anywhere, or anything that
      leaves the images alone. */
  ghost predicate Step(w: World, w': World) {
    || (w'.images == w.images && w'.aliases == w.aliases)
    || (exists uuid, existing, fingerprint, text, predeploy, rest :: Creates(w, uuid, existing, fingerprint, text, predeploy, w', rest))
    || (exists alias, rest :: Deletes(w, alias, w', rest))
  }

  /** The images and aliases at each point of an upload. */
  lemma UploadCuts(w: World, alias: string, fingerprint: string, text: string, predeploy: Option<(string, Instance)>, w': World, rest: Plan)
    requires Runs(w, UploadPlan(alias, fingerprint, text, predeploy), w', rest)
    ensures || (w'.images == w.images && w'.aliases == w.aliases)
      || (fingerprint !in w.images && w'.images == w.images[fingerprint := Image(Some(text))]
          && (w'.aliases == w.aliases || (alias !in w.aliases && w'.aliases == w.aliases[alias := fingerprint])))
  {
    var plan := UploadPlan(alias, fingerprint, text, predeploy);
    if !(w' == w && rest == plan) {
      var w1 := Apply(w, plan.effect);
      if !(w' == w1 && rest == plan.rest) {
        var w2 := Apply(w1, plan.rest.effect);
        assert Runs(w2, plan.rest.rest, w', rest);
        PredeployKeepsImages(w2, alias, fingerprint, text, predeploy, w', rest);
      }
    }
  }

  lemma PredeployKeepsImages(w: World, alias: string, fingerprint: string, text: string, predeploy: Option<(string, Instance)>, w': World, rest: Plan)
    requires Runs(w, UploadPlan(alias, fingerprint, text, predeploy).rest.rest, w', rest)
    ensures w'.images == w.images && w'.aliases == w.aliases
  {
    var plan := UploadPlan(alias, fingerprint, text, predeploy).rest.rest;
    if plan.Then? && !(w' == w && rest == plan) {
      var w1 := Apply(w, plan.effect);
      assert Runs(w1, plan.rest, w', rest);
      if !(w' == w1 && rest == plan.rest) { assert Runs(Apply(w1, plan.rest.effect), Done, w', rest); }
    }
  }

  lemma UploadKeepsSound(w: World, alias: string, fingerprint: string, text: string, w': World)
    requires StemcellsSound(w) && Found(w, text, "") && alias != ""
    requires fingerprint !in w.images && w'.images == w.images[fingerprint := Image(Some(text))]
    requires w'.aliases == w.aliases || (alias !in w.aliases && w'.aliases == w.aliases[alias := fingerprint])
    ensures StemcellsSound(w')
  {
    forall a, t | Describes(w', a, t) ensures Describes(w, a, t) || (a == alias && t == text && alias !in w.aliases) {
    }
  }

  lemma DropKeepsSound(w: World, fingerprint: string)
    requires StemcellsSound(w)
    ensures StemcellsSound(Apply(w, DropImage(fingerprint)))
  {
    var w' := Apply(w, DropImage(fingerprint));
    forall a, t | Describes(w', a, t) ensures Describes(w, a, t) {
    }
  }

  lemma StepKeepsSound(w: World, w': World)
    requires StemcellsSound(w) && Step(w, w')
    ensures StemcellsSound(w')
  {
    if w'.images == w.images && w'.aliases == w.aliases {
      assert forall a, t :: Describes(w', a, t) <==> Describes(w, a, t);
    } else if uuid, existing, fingerprint, text, predeploy, rest :| Creates(w, uuid, existing, fingerprint, text, predeploy, w', rest) {
      CreateCuts(w, uuid, existing, fingerprint, text, predeploy, w', rest);
      UploadKeepsSound(w, "img-" + uuid, fingerprint, text, w');
    } else {
      var alias, rest :| Deletes(w, alias, w', rest);
      DeleteCuts(w, alias, w', rest);
      DropKeepsSound(w, w.aliases[alias]);
      assert forall a, t :: Describes(w', a, t) <==> Describes(Apply(w, DropImage(w.aliases[alias])), a, t);
    }
  }

  lemma CreateCuts(w: World, uuid: string, existing: string, fingerprint: string, text: string,
                   predeploy: Option<(string, Instance)>, w': World, rest: Plan)
    requires Creates(w, uuid, existing, fingerprint, text, predeploy, w', rest)
    ensures || (w'.images == w.images && w'.aliases == w.aliases)
      || (existing == "" && fingerprint !in w.images && w'.images == w.images[fingerprint := Image(Some(text))]
          && (w'.aliases == w.aliases || ("img-" + uuid !in w.aliases && w'.aliases == w.aliases["img-" + uuid := fingerprint])))
  {
    var plan := CreateStemcellPlan(uuid, existing, fingerprint, text, predeploy);
    if !(w' == w && rest == plan) {
      var w1 := Apply(w, TakeUuid(uuid));
      assert Runs(w1, plan.rest, w', rest);
      if existing == "" { UploadCuts(w1, "img-" + uuid, fingerprint, text, predeploy, w', rest); }
    }
  }

  /** A deletion that has changed the images has dropped the one behind the alias. */
  lemma DeleteCuts(w: World, alias: string, w': World, rest: Plan)
    requires Runs(w, DeleteStemcellPlan(w, alias, PredeployName(alias)), w', rest)
    ensures (w'.images == w.images && w'.aliases == w.aliases)
      || (alias in w.aliases && w'.images == Apply(w, DropImage(w.aliases[alias])).images && w'.aliases == Apply(w, DropImage(w.aliases[alias])).aliases)
  {
    var predeployed := PredeployName(alias);
    var plan := DeleteStemcellPlan(w, alias, predeployed);
    if predeployed in w.instances && !(w' == w && rest == plan) {
      var w1 := Apply(w, DropInstance(predeployed));
      assert Runs(w1, plan.rest, w', rest);
      if !(w' == w1 && rest == plan.rest) { assert Runs(Apply(w1, plan.rest.effect), Done, w', rest); }
    } else if !(w' == w && rest == plan) {
      assert Runs(Apply(w, plan.effect), Done, w', rest);
    }
  }

  /** Over every sequential run, failed calls included, no description gets a second aliased image. */
  lemma {:induction false} RunKeepsOneAlias(worlds: seq<World>, i: nat)
    requires i < |worlds| && StemcellsSound(worlds[0])
    requires forall j :: 0 < j < |worlds| ==> Step(worlds[j - 1], worlds[j])
    ensures StemcellsSound(worlds[i])
  {
    if i > 0 {
      RunKeepsOneAlias(worlds, i - 1);
      StepKeepsSound(worlds[i - 1], worlds[i]);
    }
  }

  /** Once a stemcell is there, a further `CreateStemcell` returns the same CID and uploads nothing. */
  lemma RepeatReturnsTheSame(w: World, uuid: string, fingerprint: string, text: string, predeploy: Option<(string, Instance)>, w1: World,
                             w2: World, existing: string, uuid2: string, fingerprint2: string, w3: World, rest: Plan)
    requires StemcellsSound(w) && Found(w, text, "")
    requires Runs(w, CreateStemcellPlan(uuid, "", fingerprint, text, predeploy), w1, Done)
    requires w2.images == w1.images && w2.aliases == w1.aliases && Found(w2, text, existing)
    requires Runs(w2, CreateStemcellPlan(uuid2, existing, fingerprint2, text, predeploy), w3, rest)
    ensures existing == "img-" + uuid
    ensures w3 == w2.(used := w3.used)
  {
    var alias := "img-" + uuid;
    CreateUploads(w, uuid, fingerprint, text, predeploy, w1);
    assert Describes(w2, alias, text);
    UploadKeepsSound(w, alias, fingerprint, text, w1);
    assert forall a, t :: Describes(w2, a, t) <==> Describes(w1, a, t);
    assert alias[0] == 'i';
    assert rest != Done || Runs(Apply(w2, TakeUuid(uuid2)), Done, w3, rest);
  }

  /** What a completed upload has changed. */
  lemma CreateUploads(w: World, uuid: string, fingerprint: string, text: string, predeploy: Option<(string, Instance)>, w1: World)
    requires Runs(w, CreateStemcellPlan(uuid, "", fingerprint, text, predeploy), w1, Done)
    ensures fingerprint !in w.images && w1.images == w.images[fingerprint := Image(Some(text))]
    ensures "img-" + uuid !in w.aliases && w1.aliases == w.aliases["img-" + uuid := fingerprint]
    ensures w1 == w.(images := w1.images, aliases := w1.aliases, used := w.used + {uuid}, instances := w1.instances)
    ensures predeploy.None? ==> w1.instances == w.instances
    ensures predeploy.Some? ==>
      && predeploy.value.0 !in w.instances
      && w1.instances == w.instances[predeploy.value.0 := predeploy.value.1.(description := "predeploy vm for " + text)]
  {
    var plan := CreateStemcellPlan(uuid, "", fingerprint, text, predeploy);
    RunsToTheEnd(w, plan, w1);
    StepOff(w, plan);
    var wa := Apply(w, plan.effect);
    StepOff(wa, plan.rest);
    var wb := Apply(wa, plan.rest.effect);
    StepOff(wb, plan.rest.rest);
    var wc := Apply(wb, plan.rest.rest.effect);
    if predeploy.Some? {
      var last := plan.rest.rest.rest;
      StepOff(wc, last);
      StepOff(Apply(wc, last.effect), last.rest);
    }
  }

  /** Deleting a freshly made stemcell, predeployed or not, restores the images, the aliases and the
      instances. */
  lemma CreateThenDeleteRestores(w: World, uuid: string, fingerprint: string, text: string, predeploy: Option<Instance>, w1: World, w2: World)
    requires AliasesTarget(w)
    requires var alias := "img-" + uuid;
      var vm := PredeployName(alias);
      && vm !in w.instances
      && Runs(w, CreateStemcellPlan(uuid, "", fingerprint, text, if predeploy.Some? then Some((vm, predeploy.value)) else None), w1, Done)
      && Runs(w1, DeleteStemcellPlan(w1, alias, vm), w2, Done)
    ensures w2 == w.(used := w.used + {uuid})
  {
    var alias := "img-" + uuid;
    var vm := PredeployName(alias);
    CreateUploads(w, uuid, fingerprint, text, if predeploy.Some? then Some((vm, predeploy.value)) else None, w1);
    var plan := DeleteStemcellPlan(w1, alias, vm);
    RunsToTheEnd(w1, plan, w2);
    StepOff(w1, plan);
    DropRestores(w, w1, alias, fingerprint);
    if predeploy.Some? {
      StepOff(Apply(w1, plan.effect), plan.rest);
      assert w1.instances - {vm} == w.instances;
    }
  }

  lemma DropRestores(w: World, w1: World, alias: string, fingerprint: string)
    requires AliasesTarget(w) && fingerprint !in w.images && alias !in w.aliases
    requires w1.images.Keys == w.images.Keys + {fingerprint} && (forall f :: f in w.images ==> w1.images[f] == w.images[f])
    requires w1.aliases == w.aliases[alias := fingerprint]
    ensures w1.images - {fingerprint} == w.images
    ensures (map a | a in w1.aliases && w1.aliases[a] != fingerprint :: w1.aliases[a]) == w.aliases
  {
  }

  // ---- repeating a `CreateStemcell` that has stopped

  /** The image is there, its alias is not. */
  predicate AliasLost(w: World, w1: World, fingerprint: string) {
    fingerprint in w1.images && w1.aliases == w.aliases
  }

  /** The names a new call draws are free. */
  predicate FreshFor(w: World, uuid: string, predeploy: Option<(string, Instance)>) {
    && uuid !in w.used && "img-" + uuid !in w.aliases
    && (predeploy.Some? ==> predeploy.value.0 !in w.instances && predeploy.value.1.location != "")
  }

  lemma UploadCompletes(w: World, uuid: string, existing: string, fingerprint: string, text: string, predeploy: Option<(string, Instance)>)
    requires FreshFor(w, uuid, predeploy)
    ensures Completes(w, CreateStemcellPlan(uuid, existing, fingerprint, text, predeploy)) <==> existing != "" || fingerprint !in w.images
  {
    var wa := Apply(w, TakeUuid(uuid));
    var plan := UploadPlan("img-" + uuid, fingerprint, text, predeploy);
    if existing == "" && fingerprint !in w.images {
      var wb := Apply(wa, plan.effect);
      var wc := Apply(wb, plan.rest.effect);
      if predeploy.Some? {
        assert Completes(Apply(wc, plan.rest.rest.effect), plan.rest.rest.rest);
      }
      assert Completes(wc, plan.rest.rest);
      assert Completes(wb, plan.rest);
    }
  }

  /** A call for a stemcell that is not there, stopped anywhere, can be repeated for the same archive
      exactly when it did not stop between the image and its alias. */
  lemma LostAliasBlocksRetry(w: World, uuid: string, fingerprint: string, text: string, predeploy: Option<(string, Instance)>, w1: World, rest: Plan,
                             uuid2: string, existing: string, predeploy2: Option<(string, Instance)>)
    requires StemcellsSound(w) && Found(w, text, "") && fingerprint !in w.images
    requires Runs(w, CreateStemcellPlan(uuid, "", fingerprint, text, predeploy), w1, rest)
    requires Found(w1, text, existing) && FreshFor(w1, uuid2, predeploy2)
    ensures Completes(w1, CreateStemcellPlan(uuid2, existing, fingerprint, text, predeploy2)) <==> !AliasLost(w, w1, fingerprint)
  {
    CreateCuts(w, uuid, "", fingerprint, text, predeploy, w1, rest);
    UploadCompletes(w1, uuid2, existing, fingerprint, text, predeploy2);
    if fingerprint in w1.images {
      if AliasLost(w, w1, fingerprint) {
        NothingFound(w, w1, fingerprint, text, existing);
      } else {
        assert Describes(w1, "img-" + uuid, text);
      }
    }
  }

  /** The stop at which the alias is lost is always possible. */
  lemma LosingStop(w: World, uuid: string, fingerprint: string, text: string, predeploy: Option<(string, Instance)>) returns (w1: World, rest: Plan)
    requires uuid !in w.used && fingerprint !in w.images
    ensures Runs(w, CreateStemcellPlan(uuid, "", fingerprint, text, predeploy), w1, rest) && rest != Done && AliasLost(w, w1, fingerprint)
  {
    var plan := CreateStemcellPlan(uuid, "", fingerprint, text, predeploy);
    var wa := Apply(w, TakeUuid(uuid));
    w1, rest := Apply(wa, plan.rest.effect), plan.rest.rest;
    assert Runs(wa, plan.rest, w1, rest) by { assert Runs(w1, rest, w1, rest); }
  }

  /** Where the alias was made but the predeployed VM was not, the repetition reports the stemcell as
      created and leaves the VM out for good. */
  lemma PredeployIsSkipped(w: World, uuid: string, fingerprint: string, text: string, vm: string, instance: Instance, w1: World, rest: Plan,
                           uuid2: string, existing: string, fingerprint2: string, predeploy2: Option<(string, Instance)>, w2: World)
    requires StemcellsSound(w) && Found(w, text, "")
    requires Runs(w, CreateStemcellPlan(uuid, "", fingerprint, text, Some((vm, instance))), w1, rest) && w1.aliases != w.aliases
    requires Found(w1, text, existing) && Runs(w1, CreateStemcellPlan(uuid2, existing, fingerprint2, text, predeploy2), w2, Done)
    ensures existing == "img-" + uuid && w2.instances == w1.instances
  {
    CreateCuts(w, uuid, "", fingerprint, text, Some((vm, instance)), w1, rest);
    UploadKeepsSound(w, "img-" + uuid, fingerprint, text, w1);
    var alias := "img-" + uuid;
    assert alias[0] == 'i';
    assert Describes(w1, alias, text);
    assert Runs(Apply(w1, TakeUuid(uuid2)), Done, w2, Done);
  }

  /** After a call for a predeployed stemcell that was not there, stopped anywhere, and a repetition that
      goes through, the stemcell returned is without its predeployed VM exactly when the first call
      stopped with the alias made and the VM missing. */
  lemma PredeployMissingExactly(w: World, uuid: string, fingerprint: string, text: string, instance: Instance, w1: World, rest: Plan,
                                uuid2: string, existing: string, fingerprint2: string, instance2: Instance, w2: World)
    requires StemcellsSound(w) && Found(w, text, "") && "img-" + uuid !in w.aliases
    requires Runs(w, CreateStemcellPlan(uuid, "", fingerprint, text, Some((PredeployName("img-" + uuid), instance))), w1, rest)
    requires Found(w1, text, existing)
    requires Runs(w1, CreateStemcellPlan(uuid2, existing, fingerprint2, text, Some((PredeployName("img-" + uuid2), instance2))), w2, Done)
    ensures var returned := if existing != "" then existing else "img-" + uuid2;
      PredeployName(returned) !in w2.instances <==> ("img-" + uuid in w1.aliases && PredeployName("img-" + uuid) !in w1.instances)
  {
    var first := Some((PredeployName("img-" + uuid), instance));
    var second := Some((PredeployName("img-" + uuid2), instance2));
    CreateCuts(w, uuid, "", fingerprint, text, first, w1, rest);
    if "img-" + uuid in w1.aliases {
      PredeployIsSkipped(w, uuid, fingerprint, text, PredeployName("img-" + uuid), instance, w1, rest,
                         uuid2, existing, fingerprint2, second, w2);
      assert existing[0] == 'i';
    } else {
      NothingFound(w, w1, fingerprint, text, existing);
      CreateUploads(w1, uuid2, fingerprint2, text, second, w2);
    }
  }

  lemma NothingFound(w: World, w1: World, fingerprint: string, text: string, existing: string)
    requires AliasesTarget(w) && Found(w, text, "") && Found(w1, text, existing) && w1.aliases == w.aliases
    requires w1.images == w.images || (fingerprint !in w.images && w1.images == w.images[fingerprint := Image(Some(text))])
    ensures existing == ""
  {
    if existing != "" { assert Describes(w, existing, text); }
  }

  /** That stop is always possible. */
  lemma PredeployMissingStop(w: World, uuid: string, fingerprint: string, text: string, vm: string, instance: Instance) returns (w1: World, rest: Plan)
    requires FreshFor(w, uuid, Some((vm, instance))) && fingerprint !in w.images
    ensures Runs(w, CreateStemcellPlan(uuid, "", fingerprint, text, Some((vm, instance))), w1, rest)
    ensures rest != Done && w1.aliases != w.aliases && vm !in w1.instances
  {
    var plan := CreateStemcellPlan(uuid, "", fingerprint, text, Some((vm, instance)));
    var wa := Apply(w, TakeUuid(uuid));
    var wb := Apply(wa, plan.rest.effect);
    w1, rest := Apply(wb, plan.rest.rest.effect), plan.rest.rest.rest;
    assert "img-" + uuid in w1.aliases;
    assert Runs(wb, plan.rest.rest, w1, rest) by { assert Runs(w1, rest, w1, rest); }
    assert Runs(wa, plan.rest, w1, rest);
  }
}
