/**
 The plan generator (cmd/template/main.go) and the quota lookup that undoes it
 (pkg/util/util.go).
 */
module Plans {
  import opened Results
  import opened Catalog

  datatype TemplateConfig = TemplateConfig(
    name: string,
    about: About,
    cpuQuota: seq<string>,
    memoryQuota: seq<string>,
    diskQuota: seq<string>,
    properties: map<string, Property>)

  datatype Quota = Quota(cpu: string, memory: string, disk: string)

  datatype QuotaError = UnexpectedBullets | UnexpectedQuota | NoBullets

  function PlanName(q: Quota): string {
    "p-" + q.cpu + "-" + q.memory + "-" + q.disk
  }

  /** The same properties describe creating, updating and binding. */
  function GenerateSchemas(properties: map<string, Property>): Schemas {
    Schemas(properties, properties, properties)
  }

  function PlanFor(q: Quota, properties: map<string, Property>, id: string): Plan {
    Plan(id, PlanName(q), "", true, true,
         map["need_quota" := Flag(true), "bullets" := Texts([q.cpu, q.memory, q.disk])],
         Some(GenerateSchemas(properties)))
  }

  function GetQuotaFromPlan(plan: Plan): Result<Quota, QuotaError> {
    if "bullets" in plan.metadata then
      var bullets := plan.metadata["bullets"];
      if !bullets.Texts? then Err(UnexpectedBullets)
      else if |bullets.texts| != 3 then Err(UnexpectedQuota)
      else Ok(Quota(bullets.texts[0], bullets.texts[1], bullets.texts[2]))
    else Err(NoBullets)
  }

  // ---------- the product ----------

  function DiskRow(cpu: string, memory: string, disks: seq<string>): seq<Quota> {
    if disks == [] then []
    else DiskRow(cpu, memory, disks[..|disks| - 1]) + [Quota(cpu, memory, disks[|disks| - 1])]
  }

  function MemoryRow(cpu: string, memories: seq<string>, disks: seq<string>): seq<Quota> {
    if memories == [] then []
    else MemoryRow(cpu, memories[..|memories| - 1], disks) + DiskRow(cpu, memories[|memories| - 1], disks)
  }

  function Product(cpus: seq<string>, memories: seq<string>, disks: seq<string>): seq<Quota> {
    if cpus == [] then []
    else Product(cpus[..|cpus| - 1], memories, disks) + MemoryRow(cpus[|cpus| - 1], memories, disks)
  }

  lemma {:induction false} DiskRowAt(cpu: string, memory: string, disks: seq<string>)
    ensures |DiskRow(cpu, memory, disks)| == |disks|
    ensures forall k :: 0 <= k < |disks| ==> DiskRow(cpu, memory, disks)[k] == Quota(cpu, memory, disks[k])
  {
    if disks != [] {
      DiskRowAt(cpu, memory, disks[..|disks| - 1]);
    }
  }

  /** n rows of one width, counted row by row. */
  function Times(n: nat, width: nat): nat {
    if n == 0 then 0 else Times(n - 1, width) + width
  }

  lemma {:induction false} TimesIsProduct(n: nat, width: nat)
    ensures Times(n, width) == n * width
  {
    if n > 0 {
      TimesIsProduct(n - 1, width);
      Distribute(n, width);
    }
  }

  lemma Distribute(n: int, width: int)
    ensures n * width == (n - 1) * width + width
  {
  }

  lemma {:induction false} MemoryRowSize(cpu: string, memories: seq<string>, disks: seq<string>)
    ensures |MemoryRow(cpu, memories, disks)| == Times(|memories|, |disks|)
  {
    if memories != [] {
      MemoryRowSize(cpu, memories[..|memories| - 1], disks);
      DiskRowAt(cpu, memories[|memories| - 1], disks);
    }
  }

  lemma {:induction false} MemoryRowAt(cpu: string, memories: seq<string>, disks: seq<string>, j: nat, k: nat)
    requires j < |memories| && k < |disks|
    ensures Times(j, |disks|) + k < |MemoryRow(cpu, memories, disks)|
    ensures MemoryRow(cpu, memories, disks)[Times(j, |disks|) + k] == Quota(cpu, memories[j], disks[k])
    decreases |memories|
  {
    hide DiskRow;
    var m := |memories| - 1;
    MemoryRowSize(cpu, memories[..m], disks);
    DiskRowAt(cpu, memories[m], disks);
    if j < m {
      MemoryRowAt(cpu, memories[..m], disks, j, k);
    }
  }

  lemma {:induction false} ProductSize(cpus: seq<string>, memories: seq<string>, disks: seq<string>)
    ensures |Product(cpus, memories, disks)| == Times(|cpus|, Times(|memories|, |disks|))
  {
    if cpus != [] {
      ProductSize(cpus[..|cpus| - 1], memories, disks);
      MemoryRowSize(cpus[|cpus| - 1], memories, disks);
    }
  }

  /** The triple (i, j, k) comes after i full memory rows, j full disk rows and k entries. */
  lemma {:induction false} ProductAt(cpus: seq<string>, memories: seq<string>, disks: seq<string>, i: nat, j: nat,
                                     k: nat)
    requires i < |cpus| && j < |memories| && k < |disks|
    ensures Times(i, Times(|memories|, |disks|)) + (Times(j, |disks|) + k) < |Product(cpus, memories, disks)|
    ensures Product(cpus, memories, disks)[Times(i, Times(|memories|, |disks|)) + (Times(j, |disks|) + k)]
         == Quota(cpus[i], memories[j], disks[k])
    decreases |cpus|
  {
    hide MemoryRow;
    var n := |cpus| - 1;
    ProductSize(cpus[..n], memories, disks);
    MemoryRowAt(cpus[n], memories, disks, j, k);
    if i < n {
      ProductAt(cpus[..n], memories, disks, i, j, k);
    }
  }

  /** Where the triple (i, j, k) stands among the plans. */
  function Place(config: TemplateConfig, i: nat, j: nat, k: nat): nat {
    (i * |config.memoryQuota| + j) * |config.diskQuota| + k
  }

  function AllQuotas(config: TemplateConfig): seq<Quota> {
    Product(config.cpuQuota, config.memoryQuota, config.diskQuota)
  }

  /** The plans carry the quotas in order and consecutive ids. */
  ghost predicate PlansFor(plans: seq<Plan>, quotas: seq<Quota>, properties: map<string, Property>, ids: nat -> string,
                           first: nat) {
    && |plans| == |quotas|
    && forall n :: 0 <= n < |plans| ==> plans[n] == PlanFor(quotas[n], properties, ids(first + n))
  }

  lemma PlansForStep(plans: seq<Plan>, quotas: seq<Quota>, properties: map<string, Property>, ids: nat -> string,
                     first: nat, q: Quota)
    requires PlansFor(plans, quotas, properties, ids, first)
    ensures PlansFor(plans + [PlanFor(q, properties, ids(first + |plans|))], quotas + [q], properties, ids, first)
  {
    hide PlanFor;
  }

  /** How each row grows by one step of its loop. */
  lemma RowsGrow(cpus: seq<string>, memories: seq<string>, disks: seq<string>, i: nat, j: nat, k: nat)
    ensures i < |cpus| ==>
              Product(cpus[..i + 1], memories, disks)
                  == Product(cpus[..i], memories, disks) + MemoryRow(cpus[i], memories, disks)
    ensures i < |cpus| && j < |memories| ==>
              MemoryRow(cpus[i], memories[..j + 1], disks)
              == MemoryRow(cpus[i], memories[..j], disks) + DiskRow(cpus[i], memories[j], disks)
    ensures i < |cpus| && j < |memories| && k < |disks| ==>
              DiskRow(cpus[i], memories[j], disks[..k + 1])
              == DiskRow(cpus[i], memories[j], disks[..k]) + [Quota(cpus[i], memories[j], disks[k])]
  {
    if i < |cpus| { assert cpus[..i + 1][..i] == cpus[..i]; }
    if j < |memories| { assert memories[..j + 1][..j] == memories[..j]; }
    if k < |disks| { assert disks[..k + 1][..k] == disks[..k]; }
  }

  lemma RowsStart(cpu: string, memory: string, memories: seq<string>, disks: seq<string>)
    ensures Product([], memories, disks) == [] && MemoryRow(cpu, [], disks) == [] && DiskRow(cpu, memory, []) == []
  {
  }

  /** The three nested loops; `ids` is the stream of generated ids. */
  method GeneratePlans(config: TemplateConfig, ids: nat -> string, first: nat) returns (plans: seq<Plan>)
    ensures PlansFor(plans, AllQuotas(config), config.properties, ids, first)
  {
    hide PlanFor, PlansFor, Product, MemoryRow, DiskRow;
    var properties := config.properties;
    var cpus, memories, disks := config.cpuQuota, config.memoryQuota, config.diskQuota;
    ghost var quotas: seq<Quota> := [];
    plans := [];
    RowsStart("", "", memories, disks);
    PlansForNone(properties, ids, first);
    for i := 0 to |cpus|
      invariant PlansFor(plans, quotas, properties, ids, first)
      invariant quotas == Product(cpus[..i], memories, disks)
    {
      ghost var before := quotas;
      RowsStart(cpus[i], "", memories, disks);
      for j := 0 to |memories|
        invariant PlansFor(plans, quotas, properties, ids, first)
        invariant quotas == before + MemoryRow(cpus[i], memories[..j], disks)
      {
        ghost var row := quotas;
        RowsStart(cpus[i], memories[j], memories, disks);
        for k := 0 to |disks|
          invariant PlansFor(plans, quotas, properties, ids, first)
          invariant quotas == row + DiskRow(cpus[i], memories[j], disks[..k])
        {
          var q := Quota(cpus[i], memories[j], disks[k]);
          PlansForStep(plans, quotas, properties, ids, first, q);
          RowsGrow(cpus, memories, disks, i, j, k);
          plans := plans + [PlanFor(q, properties, ids(first + |plans|))];
          quotas := quotas + [q];
        }
        assert disks[..|disks|] == disks;
        RowsGrow(cpus, memories, disks, i, j, 0);
      }
      assert memories[..|memories|] == memories;
      RowsGrow(cpus, memories, disks, i, 0, 0);
    }
    assert cpus[..|cpus|] == cpus;
  }

  lemma PlansForNone(properties: map<string, Property>, ids: nat -> string, first: nat)
    ensures PlansFor([], [], properties, ids, first)
  {
  }

  ghost predicate DistinctIds(ids: nat -> string) {
    forall a: nat, b: nat :: a != b ==> ids(a) != ids(b)
  }

  /** An offering generated from a config, with its own id `at` and its plan ids right after. */
  ghost predicate OfferingFor(o: Offering, config: TemplateConfig, ids: nat -> string, at: nat) {
    && o.name == config.name && o.about == config.about && o.id == ids(at)
    && PlansFor(o.plans, AllQuotas(config), config.properties, ids, at + 1)
  }

  /** One offering per walked config; `starts` says where in the stream each took its id. */
  ghost predicate Generated(templates: map<string, Offering>, configs: map<string, TemplateConfig>, ids: nat -> string,
                            starts: map<string, nat>, next: nat, left: set<string>)
  {
    && left <= configs.Keys
    && templates.Keys == starts.Keys == configs.Keys - left
    && (forall name :: name in templates ==>
          && OfferingFor(templates[name], configs[name], ids, starts[name])
          && templates[name].id == ids(starts[name])
          && starts[name] < next)
    && (forall name :: name in templates ==> starts[name] + |templates[name].plans| < next)
    && (forall a, b :: a in starts && b in starts && a != b ==>
          starts[a] + |templates[a].plans| < starts[b] || starts[b] + |templates[b].plans| < starts[a])
  }

  /** All ids that a generated catalog uses. */
  ghost predicate Uses(templates: map<string, Offering>, name: string, n: int, id: string) {
    && name in templates
    && if n < 0 then n == -1 && id == templates[name].id
       else n < |templates[name].plans| && id == templates[name].plans[n].id
  }

  lemma GenerateOne(templates: map<string, Offering>, configs: map<string, TemplateConfig>, ids: nat -> string,
                    starts: map<string, nat>, next: nat, left: set<string>, name: string, o: Offering)
    requires Generated(templates, configs, ids, starts, next, left) && name in left
    requires OfferingFor(o, configs[name], ids, next) && o.id == ids(next)
    ensures Generated(templates[name := o], configs, ids, starts[name := next], next + 1 + |o.plans|, left - {name})
  {
    hide OfferingFor;
  }

  /** One offering per config, whatever order the map of configs is walked in. */
  method GenerateTemplate(configs: map<string, TemplateConfig>, ids: nat -> string)
    returns (templates: map<string, Offering>)
    ensures templates.Keys == configs.Keys
    ensures forall name :: name in templates ==> exists at: nat :: OfferingFor(templates[name], configs[name], ids, at)
    ensures DistinctIds(ids) ==> forall a, m, b, n, id :: Uses(templates, a, m, id) && Uses(templates, b, n, id) ==>
              a == b && m == n
  {
    templates := map[];
    var left, next: nat := configs.Keys, 0;
    ghost var starts: map<string, nat> := map[];
    GeneratedNone(configs, ids);
    hide Generated, OfferingFor, AllQuotas, PlansFor;
    while left != {}
      invariant left <= configs.Keys && Generated(templates, configs, ids, starts, next, left)
      decreases |left|
    {
      var name :| name in left;
      var plans := GeneratePlans(configs[name], ids, next + 1);
      var offering := Offering(ids(next), configs[name].name, configs[name].about, plans);
      GeneratedOffering(offering, configs[name], ids, next);
      GenerateOne(templates, configs, ids, starts, next, left, name, offering);
      templates := templates[name := offering];
      starts := starts[name := next];
      next := next + 1 + |plans|;
      left := left - {name};
    }
    GeneratedMeaning(templates, configs, ids, starts, next);
  }

  lemma GeneratedNone(configs: map<string, TemplateConfig>, ids: nat -> string)
    ensures Generated(map[], configs, ids, map[], 0, configs.Keys)
  {
  }

  lemma GeneratedMeaning(templates: map<string, Offering>, configs: map<string, TemplateConfig>, ids: nat -> string,
                         starts: map<string, nat>, next: nat)
    requires Generated(templates, configs, ids, starts, next, {})
    ensures templates.Keys == configs.Keys
    ensures forall name :: name in templates ==> exists at: nat :: OfferingFor(templates[name], configs[name], ids, at)
    ensures DistinctIds(ids) ==> forall a, m, b, n, id :: Uses(templates, a, m, id) && Uses(templates, b, n, id) ==>
              a == b && m == n
  {
    hide OfferingFor;
    if DistinctIds(ids) {
      forall a, m, b, n, id | Uses(templates, a, m, id) && Uses(templates, b, n, id) ensures a == b && m == n {
        UsedId(templates[a], configs[a], ids, starts[a], m, id);
        UsedId(templates[b], configs[b], ids, starts[b], n, id);
      }
    }
  }

  /** The id of plan n comes n + 1 places after that of the offering. */
  lemma UsedId(o: Offering, config: TemplateConfig, ids: nat -> string, at: nat, n: int, id: string)
    requires OfferingFor(o, config, ids, at)
    requires if n < 0 then n == -1 && id == o.id else n < |o.plans| && id == o.plans[n].id
    ensures -1 <= n && id == ids(at + 1 + n)
  {
    hide AllQuotas;
  }

  lemma GeneratedOffering(o: Offering, config: TemplateConfig, ids: nat -> string, at: nat)
    requires o.name == config.name && o.about == config.about && o.id == ids(at)
    requires PlansFor(o.plans, AllQuotas(config), config.properties, ids, at + 1)
    ensures OfferingFor(o, config, ids, at)
  {
  }

  /** There are |cpu|·|memory|·|disk| quotas, and the triple (i, j, k) stands at its place. */
  lemma QuotaAtPlace(config: TemplateConfig, i: nat, j: nat, k: nat)
    requires i < |config.cpuQuota| && j < |config.memoryQuota| && k < |config.diskQuota|
    ensures |AllQuotas(config)| == |config.cpuQuota| * |config.memoryQuota| * |config.diskQuota|
    ensures Place(config, i, j, k) < |AllQuotas(config)|
    ensures AllQuotas(config)[Place(config, i, j, k)]
         == Quota(config.cpuQuota[i], config.memoryQuota[j], config.diskQuota[k])
  {
    hide Product, Times;
    TimesIsProduct(|config.memoryQuota|, |config.diskQuota|);
    TimesIsProduct(j, |config.diskQuota|);
    TimesIsProduct(i, |config.memoryQuota| * |config.diskQuota|);
    TimesIsProduct(|config.cpuQuota|, |config.memoryQuota| * |config.diskQuota|);
    ProductSize(config.cpuQuota, config.memoryQuota, config.diskQuota);
    ProductAt(config.cpuQuota, config.memoryQuota, config.diskQuota, i, j, k);
    Regroup(i, |config.memoryQuota|, j, |config.diskQuota|);
    Regroup(|config.cpuQuota|, |config.memoryQuota|, 0, |config.diskQuota|);
  }

  lemma Regroup(i: nat, m: nat, j: nat, d: nat)
    ensures (i * m + j) * d == i * (m * d) + j * d
  {
  }

  /**
   Every triple of the config is offered: the plan at its place carries it, the quota
   lookup gives it back, and with distinct ids a search by plan id finds that plan.
   */
  lemma PlanCarriesTriple(o: Offering, config: TemplateConfig, ids: nat -> string, at: nat, i: nat, j: nat, k: nat)
    requires OfferingFor(o, config, ids, at)
    requires i < |config.cpuQuota| && j < |config.memoryQuota| && k < |config.diskQuota|
    ensures |o.plans| == |config.cpuQuota| * |config.memoryQuota| * |config.diskQuota|
    ensures var n := Place(config, i, j, k);
            && n < |o.plans|
            && GetQuotaFromPlan(o.plans[n]) == Ok(Quota(config.cpuQuota[i], config.memoryQuota[j], config.diskQuota[k]))
            && o.plans[n].name == "p-" + config.cpuQuota[i] + "-" + config.memoryQuota[j] + "-" + config.diskQuota[k]
            && o.plans[n].free && o.plans[n].bindable && o.plans[n].description == ""
            && "need_quota" in o.plans[n].metadata && o.plans[n].metadata["need_quota"] == Flag(true)
            && (var schemas := o.plans[n].schemas;
                && schemas.Some?
                && schemas.value.create == schemas.value.update == schemas.value.bind == config.properties)
            && (DistinctIds(ids) ==> FindPlan(o.plans, o.plans[n].id) == Some(o.plans[n]))
  {
    hide AllQuotas, FindPlan, Place;
    QuotaAtPlace(config, i, j, k);
    var n := Place(config, i, j, k);
    assert o.plans[n] == PlanFor(AllQuotas(config)[n], config.properties, ids(at + 1 + n));
    if DistinctIds(ids) {
      FindByDistinctId(o.plans, n);
    }
  }

  lemma {:induction false} FindByDistinctId(plans: seq<Plan>, n: nat)
    requires n < |plans|
    requires forall a, b :: 0 <= a < b < |plans| ==> plans[a].id != plans[b].id
    ensures FindPlan(plans, plans[n].id) == Some(plans[n])
    decreases |plans|
  {
    if n < |plans| - 1 {
      FindByDistinctId(plans[..|plans| - 1], n);
    }
  }

  // ---------- JSON ----------

  /** What a metadata value is after the catalog was written to JSON and read back. */
  function Decoded(v: Value): Value {
    match v
    case Texts(texts) => Values(seq(|texts|, i requires 0 <= i < |texts| => Text(texts[i])))
    case Values(values) => Values(seq(|values|, i requires 0 <= i < |values| => Decoded(values[i])))
    case _ => v
  }

  function DecodedPlan(p: Plan): Plan {
    p.(metadata := map k | k in p.metadata :: Decoded(p.metadata[k]))
  }

  /** The lookup succeeds exactly on a list of three strings that is typed as strings, and says what is wrong. */
  lemma QuotaFoundIff(p: Plan, q: Quota)
    ensures GetQuotaFromPlan(p) == Ok(q)
       <==> "bullets" in p.metadata && p.metadata["bullets"] == Texts([q.cpu, q.memory, q.disk])
    ensures GetQuotaFromPlan(p) == Err(NoBullets) <==> "bullets" !in p.metadata
    ensures GetQuotaFromPlan(p) == Err(UnexpectedBullets) <==> "bullets" in p.metadata && !p.metadata["bullets"].Texts?
    ensures GetQuotaFromPlan(p) == Err(UnexpectedQuota)
       <==> "bullets" in p.metadata && p.metadata["bullets"].Texts? && |p.metadata["bullets"].texts| != 3
  {
    if "bullets" in p.metadata && p.metadata["bullets"].Texts? && |p.metadata["bullets"].texts| == 3 {
      var t := p.metadata["bullets"].texts;
      assert t == [t[0], t[1], t[2]];
    }
  }

  /** So no plan that went through JSON, generated or not, gives up its quota. */
  lemma QuotaLostInJson(p: Plan)
    ensures GetQuotaFromPlan(DecodedPlan(p)) == Err(if "bullets" in p.metadata then UnexpectedBullets else NoBullets)
  {
  }

  // ---------- plan names ----------

  predicate NoDash(s: string) { '-' !in s }

  function BeforeDash(s: string): string {
    if s == "" || s[0] == '-' then "" else [s[0]] + BeforeDash(s[1..])
  }

  /** Undoes `PlanName`: two fields up to a dash, the rest is the disk. */
  function ParsePlanName(name: string): Option<Quota> {
    if |name| < 2 || name[..2] != "p-" then None
    else
      var rest := name[2..];
      var cpu := BeforeDash(rest);
      if |cpu| >= |rest| then None
      else
        var rest' := rest[|cpu| + 1..];
        var memory := BeforeDash(rest');
        if |memory| >= |rest'| then None
        else Some(Quota(cpu, memory, rest'[|memory| + 1..]))
  }

  lemma {:induction false} BeforeDashOf(field: string, rest: string)
    requires NoDash(field)
    ensures BeforeDash(field + "-" + rest) == field
    decreases |field|
  {
    var s := field + "-" + rest;
    if field != "" {
      assert s[1..] == field[1..] + "-" + rest;
      BeforeDashOf(field[1..], rest);
    }
  }

  lemma {:induction false} BeforeDashMeaning(s: string)
    ensures NoDash(BeforeDash(s)) && BeforeDash(s) <= s
    ensures |BeforeDash(s)| < |s| ==> s[|BeforeDash(s)|] == '-'
  {
    if s != "" && s[0] != '-' {
      BeforeDashMeaning(s[1..]);
    }
  }

  /** What the parser sees after the prefix. */
  lemma NameParts(q: Quota)
    ensures var rest := q.cpu + "-" + (q.memory + "-" + q.disk);
            && PlanName(q)[..2] == "p-" && PlanName(q)[2..] == rest
            && rest[|q.cpu| + 1..] == q.memory + "-" + q.disk
            && (q.memory + "-" + q.disk)[|q.memory| + 1..] == q.disk
  {
  }

  /** The parser recovers the triple exactly if cpu and memory contain no dash; the disk may. */
  lemma PlanNameRoundTripIff(q: Quota)
    ensures ParsePlanName(PlanName(q)) == Some(q) <==> NoDash(q.cpu) && NoDash(q.memory)
  {
    NameParts(q);
    var rest := q.cpu + "-" + (q.memory + "-" + q.disk);
    if NoDash(q.cpu) && NoDash(q.memory) {
      BeforeDashOf(q.cpu, q.memory + "-" + q.disk);
      BeforeDashOf(q.memory, q.disk);
      hide BeforeDash, PlanName, NoDash;
    } else {
      BeforeDashMeaning(rest);
      if |BeforeDash(rest)| < |rest| {
        BeforeDashMeaning(rest[|BeforeDash(rest)| + 1..]);
      }
      hide BeforeDash, PlanName, NoDash;
    }
  }

  /** Hence names tell the triples apart. */
  lemma PlanNamesInjective(q: Quota, q': Quota)
    requires NoDash(q.cpu) && NoDash(q.memory) && NoDash(q'.cpu) && NoDash(q'.memory)
    requires PlanName(q) == PlanName(q')
    ensures q == q'
  {
    PlanNameRoundTripIff(q);
    PlanNameRoundTripIff(q');
  }

  function Dashes(s: string): nat {
    if s == "" then 0 else (if s[0] == '-' then 1 else 0) + Dashes(s[1..])
  }

  lemma {:induction false} DashesAdd(s: string, s': string)
    ensures Dashes(s + s') == Dashes(s) + Dashes(s')
  {
    if s == "" {
      assert s + s' == s';
    } else {
      assert (s + s')[1..] == s[1..] + s';
      DashesAdd(s[1..], s');
    }
  }

  lemma {:induction false} NoDashIff(s: string)
    ensures NoDash(s) <==> Dashes(s) == 0
  {
    if s != "" {
      NoDashIff(s[1..]);
      assert s == [s[0]] + s[1..];
    }
  }

  /** A name has three dashes of its own. */
  lemma PlanNameDashes(q: Quota)
    ensures Dashes(PlanName(q)) == 3 + Dashes(q.cpu) + Dashes(q.memory) + Dashes(q.disk)
  {
    hide Dashes;
    assert Dashes("-") == 1 && Dashes("p-") == 1 by { TwoLiterals(); }
    DashesAdd("p-", q.cpu);
    DashesAdd("p-" + q.cpu, "-");
    DashesAdd("p-" + q.cpu + "-", q.memory);
    DashesAdd("p-" + q.cpu + "-" + q.memory, "-");
    DashesAdd("p-" + q.cpu + "-" + q.memory + "-", q.disk);
  }

  lemma TwoLiterals()
    ensures Dashes("-") == 1 && Dashes("p-") == 1
  {
    assert "p-"[1..] == "-" && "-"[1..] == "";
  }

  lemma {:induction false} SplitAtDash(s: string) returns (a: string, b: string)
    requires !NoDash(s)
    ensures s == a + "-" + b
  {
    if s[0] == '-' {
      a, b := "", s[1..];
    } else {
      a, b := SplitAtDash(s[1..]);
      a := [s[0]] + a;
    }
  }

  /** With a dash in the cpu or the memory, another triple has the same name. */
  lemma PlanNamesCollide(a: string, b: string, c: string, d: string)
    ensures PlanName(Quota(a + "-" + b, c, d)) == PlanName(Quota(a, b + "-" + c, d))
    ensures PlanName(Quota(a, b + "-" + c, d)) == PlanName(Quota(a, b, c + "-" + d))
    ensures Quota(a + "-" + b, c, d) != Quota(a, b + "-" + c, d) && Quota(a, b + "-" + c, d) != Quota(a, b, c + "-" + d)
  {
    assert |a + "-" + b| > |a| && |b + "-" + c| > |b|;
  }

  /** A name belongs to one triple only exactly if no part of that triple has a dash. */
  lemma PlanNameUniqueIff(q: Quota)
    ensures (forall q' :: PlanName(q') == PlanName(q) ==> q' == q)
       <==> NoDash(q.cpu) && NoDash(q.memory) && NoDash(q.disk)
  {
    hide PlanName;
    if !NoDash(q.cpu) {
      var a, b := SplitAtDash(q.cpu);
      PlanNamesCollide(a, b, q.memory, q.disk);
    } else if !NoDash(q.memory) {
      var b, c := SplitAtDash(q.memory);
      PlanNamesCollide(q.cpu, b, c, q.disk);
    } else if !NoDash(q.disk) {
      var c, d := SplitAtDash(q.disk);
      PlanNamesCollide(q.cpu, q.memory, c, d);
    } else {
      forall q' | PlanName(q') == PlanName(q) ensures q' == q {
        PlanNameDashes(q);
        PlanNameDashes(q');
        NoDashIff(q.cpu);
        NoDashIff(q.memory);
        NoDashIff(q.disk);
        NoDashIff(q'.cpu);
        NoDashIff(q'.memory);
        PlanNamesInjective(q, q');
      }
    }
  }
}
