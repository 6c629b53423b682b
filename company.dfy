/// The nested company form collections: Company → Departments → Teams.
/// Each collection level resolves the instance its form binds to from the
/// submitted data (`retrieve_instance`), and the department form restricts its
/// sales-team choices to the department's own teams.
module CompanyForms {
  import opened Values
  import opened Store

  /// What `retrieve_instance` returns: nothing (`None`, the level is skipped),
  /// an instance for the form, or an exception that escapes it.
  datatype Resolution = Skip | Bound(entity: Entity) | Escaped(exc: Exc)

  /// One level's resolver: the key of its form in the submitted data, whether
  /// the lookup goes through the parent instance's related manager, and the
  /// exception classes its `except` clause catches.
  datatype Resolver = Resolver(key: string, scoped: bool, absorbs: set<Exc>)

  const TeamResolver := Resolver("team", true, {AttributeError, DoesNotExist, ValueError})
  const DepartmentResolver := Resolver("department", true, {AttributeError, DoesNotExist, ValueError})
  const CompanyResolver := Resolver("company", false, {DoesNotExist})

  /// The shared shape of the three `retrieve_instance` methods:
  ///   if sub := data.get(key):
  ///     try: return scope.get(id=sub.get('id') or 0)
  ///     except absorbs: return Model(name=sub.get('name'), parent=parent)
  /// A truthy `sub` that is not a dict has no `.get`: the `AttributeError` it
  /// raises escapes even where it is caught, because the `except` branch calls
  /// `sub.get('name')` again.
  function Retrieve(res: Resolver, t: Table, parent: Option<Entity>, data: map<string, Value>): (r: Resolution)
    ensures r.Skip? <==> !Truthy(Get(data, res.key))
    ensures r.Bound? ==> Get(data, res.key).Dict?
    ensures r.Bound? && r.entity.Stored? ==>
              r.entity.id in t && r.entity.row == t[r.entity.id]
              && CoerceId(IdArg(Get(data, res.key).entries)) == IdOk(r.entity.id)
              && InScope(r.entity.row, if res.scoped then Within(parent) else Global)
    ensures r.Bound? && r.entity.Transient? ==>
              r.entity == Transient(Get(Get(data, res.key).entries, "name"), if res.scoped then parent else None)
    ensures r.Escaped? && r.exc != AttributeError ==> r.exc !in res.absorbs
    ensures Truthy(Get(data, res.key)) && !Get(data, res.key).Dict? ==> r == Escaped(AttributeError)
    ensures Get(data, res.key).Dict? && Truthy(Get(data, res.key)) ==>
              var sub := Get(data, res.key).entries;
              var f := FetchById(t, if res.scoped then Within(parent) else Global, IdArg(sub));
              && (f.Found? ==> r == Bound(Stored(f.id, f.row)))
              && (f.Raised? && f.exc in res.absorbs ==>
                    r == Bound(Transient(Get(sub, "name"), if res.scoped then parent else None)))
              && (f.Raised? && f.exc !in res.absorbs ==> r == Escaped(f.exc))
  {
    var sub := Get(data, res.key);
    if !Truthy(sub) then Skip
    else if !sub.Dict? then Escaped(AttributeError)
    else
      var scope := if res.scoped then Within(parent) else Global;
      match FetchById(t, scope, IdArg(sub.entries))
      case Found(id, row) => Bound(Stored(id, row))
      case Raised(e) =>
        if e in res.absorbs then Bound(Transient(Get(sub.entries, "name"), if res.scoped then parent else None))
        else Escaped(e)
  }

  /// `TeamCollection.retrieve_instance`, with `department` for `self.instance`.
  function RetrieveTeam(teams: Table, department: Option<Entity>, data: map<string, Value>): (r: Resolution)
    ensures r.Skip? <==> !Truthy(Get(data, "team"))
    ensures r.Bound? ==> Get(data, "team").Dict?
    ensures r.Bound? && r.entity.Stored? ==>
              r.entity.id in teams && r.entity.row == teams[r.entity.id]
              && department.Some? && department.value.Stored?
              && r.entity.row.parent == Some(department.value.id)
              && CoerceId(IdArg(Get(data, "team").entries)) == IdOk(r.entity.id)
    ensures r.Bound? && r.entity.Transient? ==>
              r.entity == Transient(Get(Get(data, "team").entries, "name"), department)
    ensures r.Escaped? <==>
              Truthy(Get(data, "team"))
              && (!Get(data, "team").Dict?
                  || (department.Some? && department.value.Stored?
                      && CoerceId(IdArg(Get(data, "team").entries)) == IdError(TypeError)))
    ensures r.Escaped? ==> r.exc == AttributeError || r.exc == TypeError
    ensures r.Escaped? && Get(data, "team").Dict? ==> r.exc == TypeError
  {
    Retrieve(TeamResolver, teams, department, data)
  }

  /// `DepartmentCollection.retrieve_instance`, with `company` for `self.instance`.
  function RetrieveDepartment(departments: Table, company: Option<Entity>, data: map<string, Value>): (r: Resolution)
    ensures r.Skip? <==> !Truthy(Get(data, "department"))
    ensures r.Bound? ==> Get(data, "department").Dict?
    ensures r.Bound? && r.entity.Stored? ==>
              r.entity.id in departments && r.entity.row == departments[r.entity.id]
              && company.Some? && company.value.Stored?
              && r.entity.row.parent == Some(company.value.id)
              && CoerceId(IdArg(Get(data, "department").entries)) == IdOk(r.entity.id)
    ensures r.Bound? && r.entity.Transient? ==>
              r.entity == Transient(Get(Get(data, "department").entries, "name"), company)
    ensures r.Escaped? <==>
              Truthy(Get(data, "department"))
              && (!Get(data, "department").Dict?
                  || (company.Some? && company.value.Stored?
                      && CoerceId(IdArg(Get(data, "department").entries)) == IdError(TypeError)))
    ensures r.Escaped? ==> r.exc == AttributeError || r.exc == TypeError
    ensures r.Escaped? && Get(data, "department").Dict? ==> r.exc == TypeError
  {
    Retrieve(DepartmentResolver, departments, company, data)
  }

  /// `CompaniesCollection.retrieve_instance`: a global lookup that catches
  /// only `DoesNotExist`.
  function RetrieveCompany(companies: Table, data: map<string, Value>): (r: Resolution)
    ensures r.Skip? <==> !Truthy(Get(data, "company"))
    ensures r.Bound? ==> Get(data, "company").Dict?
    ensures r.Bound? && r.entity.Stored? ==>
              r.entity.id in companies && r.entity.row == companies[r.entity.id]
              && CoerceId(IdArg(Get(data, "company").entries)) == IdOk(r.entity.id)
    ensures r.Bound? && r.entity.Transient? ==>
              r.entity == Transient(Get(Get(data, "company").entries, "name"), None)
    ensures r.Escaped? <==>
              Truthy(Get(data, "company"))
              && (!Get(data, "company").Dict? || CoerceId(IdArg(Get(data, "company").entries)).IdError?)
  {
    Retrieve(CompanyResolver, companies, None, data)
  }

  /// An identifier that matches a team of the parent department yields that
  /// stored team itself; no new team is built.
  lemma TeamFoundInScope(teams: Table, d: int, drow: Row, data: map<string, Value>, n: int)
    requires Get(data, "team").Dict? && Truthy(Get(data, "team"))
    requires CoerceId(IdArg(Get(data, "team").entries)) == IdOk(n)
    requires n in teams && teams[n].parent == Some(d)
    ensures RetrieveTeam(teams, Some(Stored(d, drow)), data) == Bound(Stored(n, teams[n]))
  {
  }

  /// Under a department that is not saved yet, every submitted team is
  /// built new, whatever its identifier: the department's related manager
  /// raises `ValueError` before the identifier is looked at.
  lemma TeamUnderUnsavedDepartmentBuildsNew(teams: Table, name: Value, company: Option<Entity>, data: map<string, Value>)
    requires Get(data, "team").Dict? && Truthy(Get(data, "team"))
    ensures RetrieveTeam(teams, Some(Transient(name, company)), data)
              == Bound(Transient(Get(Get(data, "team").entries, "name"), Some(Transient(name, company))))
  {
  }

  /// Every failure the team resolver catches — no parent, a non-numeric
  /// identifier, no such team in the department (including key 0 and a team
  /// of another department) — yields the same new team.
  lemma TeamFailuresBuildNew(teams: Table, department: Option<Entity>, data: map<string, Value>)
    requires Get(data, "team").Dict? && Truthy(Get(data, "team"))
    requires FetchById(teams, Within(department), IdArg(Get(data, "team").entries)) in
               {Raised(AttributeError), Raised(ValueError), Raised(DoesNotExist)}
    ensures RetrieveTeam(teams, department, data)
              == Bound(Transient(Get(Get(data, "team").entries, "name"), department))
  {
  }

  /// A missing, `None`, empty or zero identifier always builds a new team.
  lemma TeamFalsyIdBuildsNew(teams: Table, department: Option<Entity>, data: map<string, Value>)
    requires WellKeyed(teams)
    requires Get(data, "team").Dict? && Truthy(Get(data, "team"))
    requires !Truthy(Get(Get(data, "team").entries, "id"))
    ensures RetrieveTeam(teams, department, data)
              == Bound(Transient(Get(Get(data, "team").entries, "name"), department))
  {
    FalsyIdCoercesToZero(Get(data, "team").entries);
  }

  /// A team stored under another department is not returned even when its
  /// identifier is submitted.
  lemma TeamOfOtherDepartmentNotReturned(teams: Table, d: int, drow: Row, data: map<string, Value>, n: int)
    requires Get(data, "team").Dict? && Truthy(Get(data, "team"))
    requires CoerceId(IdArg(Get(data, "team").entries)) == IdOk(n)
    requires n in teams && teams[n].parent != Some(d)
    ensures RetrieveTeam(teams, Some(Stored(d, drow)), data)
              == Bound(Transient(Get(Get(data, "team").entries, "name"), Some(Stored(d, drow))))
  {
  }

  /// The department resolver absorbs the same failures as the team resolver.
  lemma DepartmentFailuresBuildNew(departments: Table, company: Option<Entity>, data: map<string, Value>)
    requires Get(data, "department").Dict? && Truthy(Get(data, "department"))
    requires FetchById(departments, Within(company), IdArg(Get(data, "department").entries)) in
               {Raised(AttributeError), Raised(ValueError), Raised(DoesNotExist)}
    ensures RetrieveDepartment(departments, company, data)
              == Bound(Transient(Get(Get(data, "department").entries, "name"), company))
  {
  }

  /// An identifier that matches a department of the parent company yields
  /// that stored department itself.
  lemma DepartmentFoundInScope(departments: Table, c: int, crow: Row, data: map<string, Value>, n: int)
    requires Get(data, "department").Dict? && Truthy(Get(data, "department"))
    requires CoerceId(IdArg(Get(data, "department").entries)) == IdOk(n)
    requires n in departments && departments[n].parent == Some(c)
    ensures RetrieveDepartment(departments, Some(Stored(c, crow)), data) == Bound(Stored(n, departments[n]))
  {
  }

  /// Under a company that is not saved yet, every submitted department is
  /// built new, whatever its identifier.
  lemma DepartmentUnderUnsavedCompanyBuildsNew(departments: Table, name: Value, data: map<string, Value>)
    requires Get(data, "department").Dict? && Truthy(Get(data, "department"))
    ensures RetrieveDepartment(departments, Some(Transient(name, None)), data)
              == Bound(Transient(Get(Get(data, "department").entries, "name"), Some(Transient(name, None))))
  {
  }

  /// An identifier of a stored company yields that company, whichever
  /// company it belongs to; no scope restricts the lookup.
  lemma CompanyFoundById(companies: Table, data: map<string, Value>, n: int)
    requires Get(data, "company").Dict? && Truthy(Get(data, "company"))
    requires CoerceId(IdArg(Get(data, "company").entries)) == IdOk(n)
    requires n in companies
    ensures RetrieveCompany(companies, data) == Bound(Stored(n, companies[n]))
  {
  }

  /// The company resolver catches `DoesNotExist` only: a non-numeric
  /// identifier is an error, not a new company.
  lemma CompanyNonNumericIdEscapes(companies: Table, data: map<string, Value>)
    requires Get(data, "company").Dict? && Truthy(Get(data, "company"))
    requires CoerceId(IdArg(Get(data, "company").entries)) == IdError(ValueError)
    ensures RetrieveCompany(companies, data) == Escaped(ValueError)
  {
  }

  /// An unknown company identifier builds a company carrying only the name.
  lemma CompanyNotFoundBuildsNew(companies: Table, data: map<string, Value>, n: int)
    requires Get(data, "company").Dict? && Truthy(Get(data, "company"))
    requires CoerceId(IdArg(Get(data, "company").entries)) == IdOk(n) && n !in companies
    ensures RetrieveCompany(companies, data) == Bound(Transient(Get(Get(data, "company").entries, "name"), None))
  {
  }

  /// For one and the same submission, the department resolver builds a new
  /// department where the company resolver raises `ValueError`.
  lemma NonNumericIdSeparatesResolvers(departments: Table, companies: Table, company: Entity)
    ensures var sub := Dict(map["id" := Str("seven"), "name" := Str("Sales")]);
      && RetrieveDepartment(departments, Some(company), map["department" := sub])
           == Bound(Transient(Str("Sales"), Some(company)))
      && RetrieveCompany(companies, map["company" := sub]) == Escaped(ValueError)
  {
    var entries := map["id" := Str("seven"), "name" := Str("Sales")];
    var sub := Dict(entries);
    assert "id" in entries && "name" in entries;
    ParseIntRejectsNonNumericStart("seven");
    assert CoerceId(IdArg(entries)) == IdError(ValueError);
    var posted, postedCompany := map["department" := sub], map["company" := sub];
    assert Get(posted, "department") == sub && Get(postedCompany, "company") == sub;
    assert FetchById(departments, Within(Some(company)), IdArg(entries)) == Raised(ValueError);
    DepartmentFailuresBuildNew(departments, Some(company), posted);
    CompanyNonNumericIdEscapes(companies, postedCompany);
  }

  /// A new department named "Sales", submitted with a null identifier under
  /// a company that has no departments yet, is built linked to the company.
  lemma NewDepartmentUnderCompany(c: int, crow: Row)
    ensures RetrieveDepartment(map[], Some(Stored(c, crow)),
                               map["department" := Dict(map["id" := Null, "name" := Str("Sales")])])
              == Bound(Transient(Str("Sales"), Some(Stored(c, crow))))
  {
    assert "id" in map["id" := Null, "name" := Str("Sales")];
  }

  /// A submitted existing department 7 resolves to the stored department, and
  /// a team "Alpha" submitted with it is built linked to that department.
  lemma StoredDepartmentWithNewTeam(departments: Table, teams: Table, c: int)
    requires WellKeyed(teams)
    requires 7 in departments && departments[7].parent == Some(c)
    ensures var company := Some(Stored(c, Row(Str("Acme"), None)));
      var dep := RetrieveDepartment(departments, company,
                   map["department" := Dict(map["id" := Int(7), "name" := Str("Renamed")])]);
      && dep == Bound(Stored(7, departments[7]))
      && RetrieveTeam(teams, Some(dep.entity), map["team" := Dict(map["id" := Null, "name" := Str("Alpha")])])
           == Bound(Transient(Str("Alpha"), Some(Stored(7, departments[7]))))
  {
    assert "id" in map["id" := Int(7), "name" := Str("Renamed")];
    assert "id" in map["id" := Null, "name" := Str("Alpha")];
    TeamFalsyIdBuildsNew(teams, Some(Stored(7, departments[7])),
                         map["team" := Dict(map["id" := Null, "name" := Str("Alpha")])]);
  }

  /// The teams offered as a department's sales team: those whose
  /// `department_id` equals the given primary key.
  function SalesTeamChoices(teams: Table, departmentPk: Option<int>): (r: set<int>)
    ensures r <= teams.Keys
  {
    set id | id in teams && teams[id].parent == departmentPk
  }

  /// Every team belongs to a department.
  predicate TeamsHaveDepartments(teams: Table) {
    forall id :: id in teams ==> teams[id].parent.Some?
  }

  /// The choices are exactly the department's own teams.
  lemma SalesTeamChoicesAreDepartmentTeams(teams: Table, d: int, id: int)
    ensures id in SalesTeamChoices(teams, Some(d)) <==> id in teams && teams[id].parent == Some(d)
  {
  }

  /// A new department (no primary key) is offered no sales team.
  lemma NewDepartmentHasNoSalesTeamChoices(teams: Table)
    requires TeamsHaveDepartments(teams)
    ensures SalesTeamChoices(teams, None) == {}
  {
    forall id | id in teams ensures id !in SalesTeamChoices(teams, None) {
      assert teams[id].parent.Some?;
    }
  }

  /// Two departments never share a sales-team choice.
  lemma SalesTeamChoicesDisjoint(teams: Table, d1: int, d2: int)
    requires d1 != d2
    ensures SalesTeamChoices(teams, Some(d1)) !! SalesTeamChoices(teams, Some(d2))
  {
  }

  /// A team offered as a department's sales team is exactly the team the
  /// team resolver returns when its identifier is submitted under that
  /// department.
  lemma SalesTeamChoiceResolvesToStoredTeam(teams: Table, d: int, drow: Row, id: int, name: Value)
    requires WellKeyed(teams)
    requires id in SalesTeamChoices(teams, Some(d))
    ensures RetrieveTeam(teams, Some(Stored(d, drow)), map["team" := Dict(map["id" := Int(id), "name" := name])])
              == Bound(Stored(id, teams[id]))
  {
    assert "id" in map["id" := Int(id), "name" := name];
  }

  /// `department_pk` as the queryset filter uses it: `None` filters on a null
  /// department, any other value is coerced to an integer key.
  function PkFilter(pk: Value): (r: Option<int>)
    requires pk.Null? || CoerceId(pk).IdOk?
    ensures r.None? <==> pk.Null?
  {
    if pk.Null? then None else Some(CoerceId(pk).n)
  }

  /// `DepartmentForm`: its constructor takes `department_pk` out of the
  /// keyword arguments before handing them to `ModelForm`, then restricts the
  /// `sales_team` queryset to that department's teams.
  class DepartmentForm {
    /// The keyword arguments passed on to `ModelForm.__init__`.
    var formKwargs: map<string, Value>
    /// The primary keys of the teams in the `sales_team` queryset.
    var salesTeamQueryset: set<int>

    constructor (kwargs: map<string, Value>, teams: Table)
      requires Get(kwargs, "department_pk").Null? || CoerceId(Get(kwargs, "department_pk")).IdOk?
      ensures formKwargs == kwargs - {"department_pk"}
      ensures salesTeamQueryset == SalesTeamChoices(teams, PkFilter(Get(kwargs, "department_pk")))
    {
      var rest := kwargs;
      var departmentPk := Get(rest, "department_pk");
      rest := rest - {"department_pk"};
      formKwargs := rest;
      salesTeamQueryset := SalesTeamChoices(teams, PkFilter(departmentPk));
    }
  }

  /// A sibling-count setting of a collection class: inherited from
  /// `FormCollection`, explicitly `None`, or a number.
  datatype Setting = Inherited | Unset | Set(n: nat)

  datatype SiblingLimits = SiblingLimits(minSiblings: Setting, maxSiblings: Setting, extraSiblings: Setting)

  /// A collection class: its declared holders in order, sibling limits, the
  /// foreign key that links its instances to the parent, and its resolver.
  datatype Collection = Collection(
    holders: seq<string>,
    limits: SiblingLimits,
    relatedField: Option<string>,
    resolver: Option<Resolver>)

  const TeamCollection := Collection(
    ["team"], SiblingLimits(Set(0), Inherited, Set(1)), Some("department"), Some(TeamResolver))

  const DepartmentCollection := Collection(
    ["department", "teams"], SiblingLimits(Set(0), Inherited, Set(1)), Some("company"), Some(DepartmentResolver))

  /// The subclass that unsets every sibling limit and inherits the rest.
  const Department2Collection := DepartmentCollection.(limits := SiblingLimits(Unset, Unset, Unset))

  const CompanyCollection := Collection(
    ["company", "departments"], SiblingLimits(Inherited, Inherited, Inherited), None, None)

  const CompaniesCollection := Collection(
    ["company", "departments"], SiblingLimits(Set(1), Inherited, Inherited), None, Some(CompanyResolver))

  /// `Department2Collection` differs from `DepartmentCollection` in its sibling
  /// limits only: it declares the same holders, links to the company the same
  /// way and resolves departments identically.
  lemma Department2OverridesOnlyLimits(departments: Table, company: Option<Entity>, data: map<string, Value>)
    ensures Department2Collection.holders == DepartmentCollection.holders
    ensures Department2Collection.relatedField == DepartmentCollection.relatedField
    ensures Department2Collection.limits != DepartmentCollection.limits
    ensures Department2Collection.limits.minSiblings == Unset
    ensures Department2Collection.limits.maxSiblings == Unset
    ensures Department2Collection.limits.extraSiblings == Unset
    ensures Department2Collection.resolver.Some?
    ensures Retrieve(Department2Collection.resolver.value, departments, company, data)
              == RetrieveDepartment(departments, company, data)
  {
  }

  /// Each collection class that resolves instances uses the resolver its
  /// `retrieve_instance` stands for; `CompanyCollection` resolves none.
  lemma CollectionsUseTheirResolvers(t: Table, parent: Option<Entity>, data: map<string, Value>)
    ensures TeamCollection.resolver == Some(TeamResolver)
    ensures DepartmentCollection.resolver == Some(DepartmentResolver)
    ensures CompanyCollection.resolver.None?
    ensures CompaniesCollection.resolver == Some(CompanyResolver)
    ensures Retrieve(TeamCollection.resolver.value, t, parent, data) == RetrieveTeam(t, parent, data)
    ensures Retrieve(DepartmentCollection.resolver.value, t, parent, data) == RetrieveDepartment(t, parent, data)
    ensures Retrieve(CompaniesCollection.resolver.value, t, parent, data) == RetrieveCompany(t, data)
  {
  }
}
