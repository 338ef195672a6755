/**
 The catalog indexes (pkg/broker/bussiness.go): built once from the embedded assets,
 consulted by every request.
 */
module Catalog {
  import opened Results

  /** Go values as they appear in plan metadata: bool, string, []string and []interface{}. */
  datatype Value = Flag(flag: bool) | Text(text: string) | Texts(texts: seq<string>) | Values(values: seq<Value>)

  /** What a parameter schema says of one property. */
  datatype Property = Property(
    description: string,
    default: string,
    required: bool,
    kind: string,
    editable: bool,
    visitable: bool)

  /** The parameters of creating, updating and binding an instance. */
  datatype Schemas = Schemas(create: map<string, Property>, update: map<string, Property>, bind: map<string, Property>)

  datatype Plan = Plan(
    id: string,
    name: string,
    description: string,
    free: bool,
    bindable: bool,
    metadata: map<string, Value>,
    schemas: Option<Schemas>)

  /** What an offering says of itself beside its name, its id and its plans. */
  datatype About = About(
    description: string,
    tags: seq<string>,
    bindable: bool,
    bindingsRetrievable: bool,
    planUpdatable: Option<bool>,
    metadata: map<string, Value>)

  /** An entry of the catalog. */
  datatype Offering = Offering(id: string, name: string, about: About, plans: seq<Plan>)

  datatype Index = Index(
    catalogs: seq<Offering>,
    serviceTemplates: map<string, string>,
    serviceIdName: map<string, string>,
    serviceIdPlan: map<string, map<string, Plan>>)

  datatype LookupError = ServiceNotFound | PlanNotFound | TemplateNotFound

  datatype InitError = AssetUnreadable(name: string) | CatalogMalformed(name: string)

  /** The embedded assets: how each is read, and how a catalog file is parsed. */
  datatype Source = Source(load: string -> Option<string>, parse: string -> Option<Offering>)

  predicate IsCatalogFile(name: string) {
    Contains(name, "_generated.json")
  }

  predicate Contains(s: string, sub: string) {
    sub <= s || (s != "" && Contains(s[1..], sub))
  }

  /** The text before the first dot, or all of it. */
  function BeforeDot(name: string): string {
    if name == "" || name[0] == '.' then "" else [name[0]] + BeforeDot(name[1..])
  }

  /** What the name of a template asset is reduced to: the longest prefix without a dot. */
  lemma {:induction false} BeforeDotMeaning(name: string)
    ensures BeforeDot(name) <= name && '.' !in BeforeDot(name)
    ensures |BeforeDot(name)| < |name| ==> name[|BeforeDot(name)|] == '.'
  {
    if name != "" && name[0] != '.' {
      BeforeDotMeaning(name[1..]);
    }
  }

  /** A name is a catalog file's exactly if the marker occurs somewhere in it. */
  lemma {:induction false} ContainsMeaning(s: string, sub: string)
    ensures Contains(s, sub) <==> exists i :: 0 <= i <= |s| && sub <= s[i..]
  {
    if sub <= s {
      assert s[0..] == s;
    } else if s != "" {
      ContainsMeaning(s[1..], sub);
      assert forall i :: 0 <= i <= |s[1..]| ==> s[1..][i..] == s[i + 1..];
      if i :| 0 <= i <= |s| && sub <= s[i..] {
        assert i > 0 by { assert s[0..] == s; }
        assert s[1..][i - 1..] == s[i..];
      }
      if i :| 0 <= i <= |s[1..]| && sub <= s[1..][i..] {
        assert sub <= s[i + 1..];
      }
    }
  }

  function GetServiceName(index: Index, serviceId: string): Result<string, LookupError> {
    if serviceId in index.serviceIdName then Ok(index.serviceIdName[serviceId]) else Err(ServiceNotFound)
  }

  function GetPlan(index: Index, serviceId: string, planId: string): Result<Plan, LookupError> {
    if serviceId in index.serviceIdPlan then
      var plans := index.serviceIdPlan[serviceId];
      if planId in plans then Ok(plans[planId]) else Err(PlanNotFound)
    else Err(ServiceNotFound)
  }

  function GetServiceTemplate(index: Index, serviceName: string): Result<string, LookupError> {
    if serviceName in index.serviceTemplates then Ok(index.serviceTemplates[serviceName]) else Err(TemplateNotFound)
  }

  // ---------- the linear searches that the indexes replace ----------

  /** The last offering with this id. */
  function FindService(catalogs: seq<Offering>, serviceId: string): Option<Offering> {
    if catalogs == [] then None
    else if catalogs[|catalogs| - 1].id == serviceId then Some(catalogs[|catalogs| - 1])
    else FindService(catalogs[..|catalogs| - 1], serviceId)
  }

  /** The last plan with this id. */
  function FindPlan(plans: seq<Plan>, planId: string): Option<Plan> {
    if plans == [] then None
    else if plans[|plans| - 1].id == planId then Some(plans[|plans| - 1])
    else FindPlan(plans[..|plans| - 1], planId)
  }

  function SearchName(catalogs: seq<Offering>, serviceId: string): Result<string, LookupError> {
    match FindService(catalogs, serviceId)
    case None => Err(ServiceNotFound)
    case Some(o) => Ok(o.name)
  }

  function SearchPlan(catalogs: seq<Offering>, serviceId: string, planId: string): Result<Plan, LookupError> {
    match FindService(catalogs, serviceId)
    case None => Err(ServiceNotFound)
    case Some(o) =>
      match FindPlan(o.plans, planId)
      case None => Err(PlanNotFound)
      case Some(plan) => Ok(plan)
  }

  /** The offering in a catalog file that is readable and well formed. */
  function CatalogIn(src: Source, name: string): Option<Offering> {
    if !IsCatalogFile(name) then None
    else
      match src.load(name)
      case None => None
      case Some(data) => src.parse(data)
  }

  /** The offerings of the named assets, in order. */
  function Offerings(src: Source, names: seq<string>): seq<Offering> {
    if names == [] then []
    else
      Offerings(src, names[..|names| - 1])
      + match CatalogIn(src, names[|names| - 1])
        case None => []
        case Some(o) => [o]
  }

  /** The text of the last template asset for a service. */
  function FindTemplate(src: Source, names: seq<string>, serviceName: string): Option<string> {
    if names == [] then None
    else
      var name := names[|names| - 1];
      if !IsCatalogFile(name) && BeforeDot(name) == serviceName then src.load(name)
      else FindTemplate(src, names[..|names| - 1], serviceName)
  }

  predicate Usable(src: Source, name: string) {
    src.load(name).Some? && (IsCatalogFile(name) ==> CatalogIn(src, name).Some?)
  }

  /** Every lookup answers as a search of the catalog list would. */
  ghost predicate AgreesWithSearch(index: Index) {
    && index.serviceIdName.Keys == index.serviceIdPlan.Keys
    && (forall id :: GetServiceName(index, id) == SearchName(index.catalogs, id))
    && (forall id, planId :: GetPlan(index, id, planId) == SearchPlan(index.catalogs, id, planId))
  }

  /** The index that the assets make, in the order in which they were enumerated. */
  ghost predicate BuiltFrom(index: Index, src: Source, names: seq<string>) {
    && index.catalogs == Offerings(src, names)
    && AgreesWithSearch(index)
    && forall svc :: FindTemplate(src, names, svc) == GetServiceTemplate(index, svc).ToOption()
  }

  /** The plans of one offering by id. */
  method PlanMap(plans: seq<Plan>) returns (byId: map<string, Plan>)
    ensures forall id :: FindPlan(plans, id) == if id in byId then Some(byId[id]) else None
  {
    byId := map[];
    for i := 0 to |plans|
      invariant forall id :: FindPlan(plans[..i], id) == if id in byId then Some(byId[id]) else None
    {
      assert plans[..i + 1][..i] == plans[..i];
      byId := byId[plans[i].id := plans[i]];
    }
    assert plans[..|plans|] == plans;
  }

  /**
   Builds the indexes from the assets in whatever order they are enumerated. It fails
   exactly when some asset is unreadable or some catalog file malformed.
   */
  method InitServiceTemplate(src: Source, names: seq<string>) returns (r: Result<Index, InitError>)
    ensures r.Ok? <==> forall name :: name in names ==> Usable(src, name)
    ensures r.Ok? ==> BuiltFrom(r.value, src, names)
    ensures r.Err? ==> r.error.name in names && !Usable(src, r.error.name)
  {
    var index := Index([], map[], map[], map[]);
    for i := 0 to |names|
      invariant forall name :: name in names[..i] ==> Usable(src, name)
      invariant BuiltFrom(index, src, names[..i])
    {
      var name := names[i];
      assert names[..i + 1][..i] == names[..i];
      assert names[..i + 1] == names[..i] + [name];
      var data := src.load(name);
      assert name in names;
      if data.None? { return Err(AssetUnreadable(name)); }
      if IsCatalogFile(name) {
        var parsed := src.parse(data.value);
        if parsed.None? { return Err(CatalogMalformed(name)); }
        var offering := parsed.value;
        var plans := PlanMap(offering.plans);
        index := AddOffering(index, offering, plans);
      } else {
        index := index.(serviceTemplates := index.serviceTemplates[BeforeDot(name) := data.value]);
      }
    }
    assert names[..|names|] == names;
    return Ok(index);
  }

  /** The three assignments made for one catalog file. */
  function AddOffering(index: Index, o: Offering, plans: map<string, Plan>): (r: Index)
    requires AgreesWithSearch(index)
    requires forall id :: FindPlan(o.plans, id) == if id in plans then Some(plans[id]) else None
    ensures AgreesWithSearch(r)
    ensures r.catalogs == index.catalogs + [o] && r.serviceTemplates == index.serviceTemplates
  {
    var catalogs := index.catalogs + [o];
    assert catalogs[..|index.catalogs|] == index.catalogs;
    assert forall id :: SearchName(catalogs, id) == if id == o.id then Ok(o.name) else SearchName(index.catalogs, id);
    assert forall planId ::
        SearchPlan(catalogs, o.id, planId) == if planId in plans then Ok(plans[planId]) else Err(PlanNotFound);
    assert forall id, planId :: id != o.id ==>
        SearchPlan(catalogs, id, planId) == SearchPlan(index.catalogs, id, planId)
                                            == GetPlan(index, id, planId);
    var r := index.(catalogs := catalogs,
                    serviceIdName := index.serviceIdName[o.id := o.name],
                    serviceIdPlan := index.serviceIdPlan[o.id := plans]);
    assert forall id :: GetServiceName(r, id) == if id == o.id then Ok(o.name) else GetServiceName(index, id);
    r
  }

  // ---------- what a search finds ----------

  /** A search finds something exactly when some catalog file defines the id, and finds one that does. */
  lemma {:induction false} FindServiceIn(src: Source, names: seq<string>, serviceId: string)
    ensures var found := FindService(Offerings(src, names), serviceId);
            && (found.Some? ==> exists a :: a in names && CatalogIn(src, a) == found && found.value.id == serviceId)
            && (found.None? ==> forall a :: a in names && CatalogIn(src, a).Some? ==>
                CatalogIn(src, a).value.id != serviceId)
  {
    if names != [] {
      var front, last := names[..|names| - 1], names[|names| - 1];
      FindServiceIn(src, front, serviceId);
      var offerings := Offerings(src, front);
      assert names == front + [last];
      match CatalogIn(src, last)
      case None =>
        assert offerings + [] == offerings;
      case Some(o) =>
        assert (offerings + [o])[..|offerings|] == offerings;
    }
  }

  /** A template asset for the service. */
  predicate TemplateFor(name: string, serviceName: string) {
    !IsCatalogFile(name) && BeforeDot(name) == serviceName
  }

  /** The template search yields the text of some template asset for the service, if there is any. */
  lemma {:induction false} FindTemplateIn(src: Source, names: seq<string>, serviceName: string)
    ensures (exists n :: n in names && TemplateFor(n, serviceName)) ==>
              exists n :: && n in names && TemplateFor(n, serviceName)
                          && FindTemplate(src, names, serviceName) == src.load(n)
    ensures (forall n :: n in names ==> !TemplateFor(n, serviceName)) ==> FindTemplate(src, names, serviceName) == None
  {
    if names != [] {
      hide IsCatalogFile, BeforeDot;
      var front, last := names[..|names| - 1], names[|names| - 1];
      FindTemplateIn(src, front, serviceName);
      assert names == front + [last];
      if TemplateFor(last, serviceName) {
        assert FindTemplate(src, names, serviceName) == src.load(last);
      }
    }
  }

  /**
   With readable assets, a service has a template exactly when the path of some template
   asset, up to its first dot, is the name of the service.
   */
  lemma TemplateFoundIff(src: Source, names: seq<string>, serviceName: string)
    requires forall n :: n in names ==> Usable(src, n)
    ensures FindTemplate(src, names, serviceName).Some?
       <==> exists n :: n in names && !IsCatalogFile(n) && BeforeDot(n) == serviceName
  {
    FindTemplateIn(src, names, serviceName);
    if n :| n in names && !IsCatalogFile(n) && BeforeDot(n) == serviceName {
      assert TemplateFor(n, serviceName);
    }
  }

  /** So when every template asset lies in a directory, no service without a slash in its name has a template. */
  lemma TemplatesInDirectoriesAreNotFound(src: Source, names: seq<string>, serviceName: string)
    requires '/' !in serviceName
    requires forall name :: name in names && !IsCatalogFile(name) ==> '/' in BeforeDot(name)
    ensures FindTemplate(src, names, serviceName) == None
  {
    FindTemplateIn(src, names, serviceName);
  }

  // ---------- which assets are what ----------

  /** An asset is a catalog file exactly if the marker occurs in its name. */
  lemma MarkerMeaning(name: string)
    ensures IsCatalogFile(name) <==> exists i :: 0 <= i <= |name| && "_generated.json" <= name[i..]
  {
    ContainsMeaning(name, "_generated.json");
  }

  /** The longest prefix without a dot is unique. */
  lemma BeforeDotIff(name: string, svc: string)
    ensures BeforeDot(name) == svc <==> svc <= name && '.' !in svc && (|svc| < |name| ==> name[|svc|] == '.')
  {
    BeforeDotMeaning(name);
    hide BeforeDot;
    var t := BeforeDot(name);
    assert forall j :: 0 <= j < |t| ==> t[j] == name[j] && t[j] in t;
    assert svc <= name ==> forall j :: 0 <= j < |svc| ==> svc[j] == name[j] && svc[j] in svc;
    assert svc <= name && |svc| == |t| ==> svc == name[..|t|] == t;
  }

  /**
   What one more asset contributes. A name with the marker in it adds exactly its parsed
   offering and no template; any other adds exactly its text, as the template of its
   longest prefix without a dot, and no offering.
   */
  lemma AssetContributes(src: Source, names: seq<string>, name: string, before: Index, after: Index)
    requires BuiltFrom(before, src, names) && BuiltFrom(after, src, names + [name])
    requires src.load(name).Some?
    ensures (exists i :: 0 <= i <= |name| && "_generated.json" <= name[i..]) ==>
              var parsed := src.parse(src.load(name).value);
              && after.catalogs == before.catalogs + (if parsed.Some? then [parsed.value] else [])
              && forall svc :: GetServiceTemplate(after, svc).ToOption() == GetServiceTemplate(before, svc).ToOption()
    ensures !(exists i :: 0 <= i <= |name| && "_generated.json" <= name[i..]) ==>
              && after.catalogs == before.catalogs
              && forall svc ::
                   GetServiceTemplate(after, svc).ToOption()
                   == if svc <= name && '.' !in svc && (|svc| < |name| ==> name[|svc|] == '.') then src.load(name)
                      else GetServiceTemplate(before, svc).ToOption()
  {
    hide IsCatalogFile, BeforeDot, AgreesWithSearch, GetServiceTemplate;
    MarkerMeaning(name);
    assert (names + [name])[..|names|] == names;
    assert before.catalogs + [] == before.catalogs;
    forall svc
      ensures FindTemplate(src, names + [name], svc)
           == if !IsCatalogFile(name) && BeforeDot(name) == svc then src.load(name) else FindTemplate(src, names, svc)
    {
    }
    forall svc
      ensures BeforeDot(name) == svc <==> svc <= name && '.' !in svc && (|svc| < |name| ==> name[|svc|] == '.')
    {
      BeforeDotIff(name, svc);
    }
  }

  lemma NoMarker(name: string)
    requires '_' !in name
    ensures !IsCatalogFile(name)
  {
    hide IsCatalogFile;
    MarkerMeaning(name);
    forall i | 0 <= i <= |name| ensures !("_generated.json" <= name[i..]) {
      assert forall c :: c in name[i..] ==> c in name;
      assert "_generated.json"[0] == '_';
    }
  }

  lemma RepositoryTemplate()
    ensures !IsCatalogFile("template/apply/zookeeper.yaml")
    ensures BeforeDot("template/apply/zookeeper.yaml") == "template/apply/zookeeper"
  {
    hide IsCatalogFile, BeforeDot;
    NoMarker("template/apply/zookeeper.yaml");
    BeforeDotIff("template/apply/zookeeper.yaml", "template/apply/zookeeper");
  }

  lemma RepositoryCatalog()
    ensures IsCatalogFile("template/catalog/zookeeper_generated.json")
  {
    hide IsCatalogFile;
    var name := "template/catalog/zookeeper_generated.json";
    MarkerMeaning(name);
    assert name[26..] == "_generated.json";
  }

  /**
   The index of the two assets that the repository embeds, in either order: the one
   offering with its plans, and one template, under a name that no service has which is
   called by its bare name.
   */
  lemma RepositoryIndex(src: Source, names: seq<string>, index: Index, o: Offering, text: string)
    requires names == ["template/catalog/zookeeper_generated.json", "template/apply/zookeeper.yaml"]
          || names == ["template/apply/zookeeper.yaml", "template/catalog/zookeeper_generated.json"]
    requires src.load("template/catalog/zookeeper_generated.json").Some?
    requires src.parse(src.load("template/catalog/zookeeper_generated.json").value) == Some(o)
    requires src.load("template/apply/zookeeper.yaml") == Some(text)
    requires BuiltFrom(index, src, names)
    ensures index.catalogs == [o]
    ensures forall id :: GetServiceName(index, id) == if id == o.id then Ok(o.name) else Err(ServiceNotFound)
    ensures forall planId :: GetPlan(index, o.id, planId).ToOption() == FindPlan(o.plans, planId)
    ensures forall svc :: GetServiceTemplate(index, svc)
                       == if svc == "template/apply/zookeeper" then Ok(text) else Err(TemplateNotFound)
  {
    RepositoryCatalog();
    RepositoryTemplate();
    hide IsCatalogFile, BeforeDot;
    var first, second := names[0], names[1];
    assert names[..1] == [first] && [first][..0] == [];
    assert Offerings(src, []) == [] && forall svc :: FindTemplate(src, [], svc) == None;
    assert Offerings(src, names) == Offerings(src, [first]) + Offerings(src, [second]) == [o];
    assert [o][..0] == [];
    forall id ensures SearchName([o], id) == if id == o.id then Ok(o.name) else Err(ServiceNotFound) {
      assert FindService([], id) == None;
    }
    forall svc ensures FindTemplate(src, names, svc) == if svc == "template/apply/zookeeper" then Some(text) else None {
      assert FindTemplate(src, names[..1], svc)
          == if !IsCatalogFile(first) && BeforeDot(first) == svc then src.load(first) else None;
    }
    hide Offerings, FindTemplate, SearchPlan;
  }

  // ---------- enumeration order ----------

  /** Two offerings that no lookup tells apart. */
  ghost predicate SameAnswers(o: Offering, o': Offering) {
    o.name == o'.name && forall planId :: FindPlan(o.plans, planId) == FindPlan(o'.plans, planId)
  }

  /** Assets that compete for one answer agree on it. */
  ghost predicate Consistent(src: Source, names: seq<string>) {
    && (forall a, b :: a in names && b in names && CatalogIn(src, a).Some? && CatalogIn(src, b).Some?
                  && CatalogIn(src, a).value.id == CatalogIn(src, b).value.id
              ==> SameAnswers(CatalogIn(src, a).value, CatalogIn(src, b).value))
    && (forall a, b :: a in names && b in names && !IsCatalogFile(a) && !IsCatalogFile(b)
                  && BeforeDot(a) == BeforeDot(b)
              ==> src.load(a) == src.load(b))
  }

  /** Every search gives the same answer in both enumerations. */
  ghost predicate Alike(src: Source, names: seq<string>, names': seq<string>) {
    && (forall id :: SearchName(Offerings(src, names), id) == SearchName(Offerings(src, names'), id))
    && (forall id, planId ::
          SearchPlan(Offerings(src, names), id, planId) == SearchPlan(Offerings(src, names'), id, planId))
    && (forall svc :: FindTemplate(src, names, svc) == FindTemplate(src, names', svc))
  }

  /** If competing assets agree, neither the order nor repetitions in the enumeration matter. */
  lemma ConsistentIsEnough(src: Source, names: seq<string>, names': seq<string>)
    requires Consistent(src, names) && forall a :: a in names <==> a in names'
    ensures Alike(src, names, names')
  {
    hide CatalogIn, IsCatalogFile, BeforeDot;
    forall id ensures SearchName(Offerings(src, names), id) == SearchName(Offerings(src, names'), id) {
      FindServiceIn(src, names, id);
      FindServiceIn(src, names', id);
    }
    forall id, planId
      ensures SearchPlan(Offerings(src, names), id, planId) == SearchPlan(Offerings(src, names'), id, planId)
    {
      FindServiceIn(src, names, id);
      FindServiceIn(src, names', id);
    }
    forall svc ensures FindTemplate(src, names, svc) == FindTemplate(src, names', svc) {
      FindTemplateIn(src, names, svc);
      FindTemplateIn(src, names', svc);
    }
  }

  /** The same enumeration with entry i moved to the end. */
  function MovedLast(names: seq<string>, i: nat): (r: seq<string>)
    requires i < |names|
    ensures multiset(r) == multiset(names)
  {
    assert names == names[..i] + [names[i]] + names[i + 1..];
    names[..i] + names[i + 1..] + [names[i]]
  }

  /** The last enumerated asset wins its lookups. */
  lemma LastWins(src: Source, names: seq<string>, i: nat)
    requires i < |names|
    ensures CatalogIn(src, names[i]).Some? ==>
              FindService(Offerings(src, MovedLast(names, i)), CatalogIn(src, names[i]).value.id)
                  == CatalogIn(src, names[i])
    ensures !IsCatalogFile(names[i]) ==>
              FindTemplate(src, MovedLast(names, i), BeforeDot(names[i])) == src.load(names[i])
  {
    hide CatalogIn, IsCatalogFile, BeforeDot;
    var moved := MovedLast(names, i);
    assert moved[|moved| - 1] == names[i];
  }

  /**
   The lookups do not depend on the order in which the assets are enumerated if and only
   if any two catalog files of one service id answer alike and any two templates of one
   name have the same text.
   */
  lemma OrderIrrelevantIff(src: Source, names: seq<string>)
    ensures Consistent(src, names)
       <==> forall e, e' :: multiset(e) == multiset(names) == multiset(e') ==> Alike(src, e, e')
  {
    hide CatalogIn, IsCatalogFile, BeforeDot, Alike, Consistent;
    if Consistent(src, names) {
      forall e, e' | multiset(e) == multiset(names) == multiset(e') ensures Alike(src, e, e') {
        SameMembers(names, e);
        SameMembers(names, e');
        ConsistentElsewhere(src, names, e);
        ConsistentIsEnough(src, e, e');
      }
    } else {
      var i, j := Rivals(src, names);
      assert multiset(MovedLast(names, i)) == multiset(names) == multiset(MovedLast(names, j));
    }
  }

  lemma SameMembers(names: seq<string>, names': seq<string>)
    requires multiset(names) == multiset(names')
    ensures forall a :: a in names <==> a in names'
  {
    forall a ensures a in names <==> a in names' {
      assert a in names <==> a in multiset(names);
      assert a in names' <==> a in multiset(names');
    }
  }

  lemma ConsistentElsewhere(src: Source, names: seq<string>, names': seq<string>)
    requires Consistent(src, names) && forall a :: a in names <==> a in names'
    ensures Consistent(src, names')
  {
    hide CatalogIn, IsCatalogFile, BeforeDot, SameAnswers;
  }

  /** Two assets that disagree, whichever of them comes last decides. */
  lemma Rivals(src: Source, names: seq<string>) returns (i: nat, j: nat)
    requires !Consistent(src, names)
    ensures i < |names| && j < |names| && !Alike(src, MovedLast(names, i), MovedLast(names, j))
  {
    hide CatalogIn, IsCatalogFile, BeforeDot;
    if a, b :| a in names && b in names && CatalogIn(src, a).Some? && CatalogIn(src, b).Some?
               && CatalogIn(src, a).value.id == CatalogIn(src, b).value.id
               && !SameAnswers(CatalogIn(src, a).value, CatalogIn(src, b).value)
    {
      i :| 0 <= i < |names| && names[i] == a;
      j :| 0 <= j < |names| && names[j] == b;
      LastWins(src, names, i);
      LastWins(src, names, j);
      var o, o' := CatalogIn(src, a).value, CatalogIn(src, b).value;
      if o.name == o'.name {
        var planId :| FindPlan(o.plans, planId) != FindPlan(o'.plans, planId);
        assert SearchPlan(Offerings(src, MovedLast(names, i)), o.id, planId)
            != SearchPlan(Offerings(src, MovedLast(names, j)), o.id, planId);
      } else {
        assert SearchName(Offerings(src, MovedLast(names, i)), o.id)
            != SearchName(Offerings(src, MovedLast(names, j)), o.id);
      }
    } else {
      var a, b :| a in names && b in names && !IsCatalogFile(a) && !IsCatalogFile(b) && BeforeDot(a) == BeforeDot(b)
                  && src.load(a) != src.load(b);
      i :| 0 <= i < |names| && names[i] == a;
      j :| 0 <= j < |names| && names[j] == b;
      LastWins(src, names, i);
      LastWins(src, names, j);
    }
  }

  /** So two indexes built from one set of consistent assets give the same answers. */
  lemma IndexesAgree(src: Source, names: seq<string>, names': seq<string>, index: Index, index': Index)
    requires Consistent(src, names) && multiset(names) == multiset(names')
    requires BuiltFrom(index, src, names) && BuiltFrom(index', src, names')
    ensures forall id :: GetServiceName(index, id) == GetServiceName(index', id)
    ensures forall id, planId :: GetPlan(index, id, planId) == GetPlan(index', id, planId)
    ensures forall svc :: GetServiceTemplate(index, svc) == GetServiceTemplate(index', svc)
  {
    hide Consistent;
    SameMembers(names, names');
    ConsistentIsEnough(src, names, names');
    forall svc ensures GetServiceTemplate(index, svc) == GetServiceTemplate(index', svc) {
      assert GetServiceTemplate(index, svc).ToOption() == GetServiceTemplate(index', svc).ToOption();
    }
  }

  /** Unique service ids and unique template names are a special case. */
  lemma UniqueIsConsistent(src: Source, names: seq<string>)
    requires forall a, b :: a in names && b in names && CatalogIn(src, a).Some? && CatalogIn(src, b).Some?
                            && CatalogIn(src, a).value.id == CatalogIn(src, b).value.id
                        ==> CatalogIn(src, a) == CatalogIn(src, b)
    requires forall a, b :: a in names && b in names && !IsCatalogFile(a) && !IsCatalogFile(b)
                            && BeforeDot(a) == BeforeDot(b)
                        ==> a == b
    ensures Consistent(src, names)
  {
    hide CatalogIn, IsCatalogFile, BeforeDot;
  }
}
