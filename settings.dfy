/**
 * The plugin's settings record, its defaults, and the role table the
 * settings tab edits: add (trimmed name, refused when blank or taken),
 * edit (one key's text) and delete (one key).
 */
module Settings {
  import opened JsString

  /** The role prompts shipped as defaults; their text is opaque here. */
  const RoleEditor: string
  const RoleSeo: string
  const RoleAuthor: string

  /** `PluginSettings`: the four members the defaults supply. */
  datatype PluginSettings = PluginSettings(
    openAIKey: string,
    openAImodel: string,
    temperature: real,
    roles: map<string, string>)

  /** `DEFAULT_SETTINGS`. */
  const DefaultSettings := PluginSettings("", "gpt-5-mini", 0.7,
    map["Text editor" := RoleEditor, "SEO Engineer" := RoleSeo, "Author" := RoleAuthor])

  /**
   * The default role table holds exactly the three roles, none of them named
   * after an inherited property, and each name is already trimmed: adding a
   * default role's name again, by either add handler, leaves the table alone.
   */
  lemma DefaultRoleNames()
    ensures DefaultSettings.roles.Keys == {"Text editor", "SEO Engineer", "Author"}
    ensures forall n | n in DefaultSettings.roles :: n !in InheritedNames
    ensures forall n | n in DefaultSettings.roles ::
      && AddRole(DefaultSettings.roles, n) == DefaultSettings.roles
      && AddRoleAsWritten(DefaultSettings.roles, n) == DefaultSettings.roles
  {
    forall n | n in DefaultSettings.roles
      ensures Trim(n) == n
    {
      TrimOfPadded([], n, []);
      assert [] + n + [] == n;
    }
  }

  /**
   * Property names every plain object inherits from Object.prototype; the
   * `in` operator finds them in any role table.
   */
  const InheritedNames: set<string> := {
    "constructor", "hasOwnProperty", "isPrototypeOf", "propertyIsEnumerable",
    "toString", "toLocaleString", "valueOf", "__proto__",
    "__defineGetter__", "__defineSetter__", "__lookupGetter__", "__lookupSetter__"}

  /** `name in roles` as JavaScript evaluates it: own keys and inherited names alike. */
  predicate InOperator(roles: map<string, string>, name: string)
    ensures name in InheritedNames ==> InOperator(roles, name)
    ensures name !in InheritedNames ==> (InOperator(roles, name) <==> name in roles)
  {
    name in roles || name in InheritedNames
  }

  /**
   * The add-role handler as written: the trimmed name is inserted with empty
   * instructions unless it is blank or `in` the table, and `in` also answers
   * yes for an inherited name.
   */
  function AddRoleAsWritten(roles: map<string, string>, input: string): (r: map<string, string>)
    ensures Trim(input) in InheritedNames ==> r == roles
  {
    var name := Trim(input);
    if name != "" && !InOperator(roles, name) then roles[name := ""] else roles
  }

  /**
   * A role named after an inherited property ("constructor", say) can never
   * be added, even to an empty table: the duplicate check mistakes the
   * inherited name for an existing role.
   */
  lemma AddRoleAsWrittenRefusesConstructor()
    ensures AddRoleAsWritten(map[], "constructor") == map[]
    ensures AddRole(map[], "constructor") == map["constructor" := ""]
  {
    assert Trim("constructor") == "constructor" by {
      TrimOfPadded([], "constructor", []);
      assert [] + "constructor" + [] == "constructor";
    }
  }

  /**
   * Adding a role, with the duplicate check on the table's own keys: a blank
   * name, or one already present, leaves the table as it is; otherwise the
   * trimmed name is added with empty instructions. Existing instructions are
   * never overwritten and no other key appears.
   */
  function AddRole(roles: map<string, string>, input: string): (r: map<string, string>)
    ensures forall k | k in roles :: k in r && r[k] == roles[k]
    ensures r.Keys <= roles.Keys + {Trim(input)}
    ensures AllSpace(input) ==> r == roles
    ensures !AllSpace(input) ==> Trim(input) in r
    ensures !AllSpace(input) && Trim(input) !in roles ==> r[Trim(input)] == ""
  {
    var name := Trim(input);
    if name != "" && name !in roles then roles[name := ""] else roles
  }

  /** The two add handlers differ only on names inherited from Object.prototype. */
  lemma AddRoleAgreesOffPrototype(roles: map<string, string>, input: string)
    requires Trim(input) !in InheritedNames
    ensures AddRoleAsWritten(roles, input) == AddRole(roles, input)
  {
  }

  /** Adding the same name twice is adding it once. */
  lemma AddRoleIdempotent(roles: map<string, string>, input: string)
    ensures AddRole(AddRole(roles, input), input) == AddRole(roles, input)
  {
  }

  /** Editing a role sets that key's text and touches no other key. */
  function EditRole(roles: map<string, string>, role: string, text: string): (r: map<string, string>)
    ensures r.Keys == roles.Keys + {role}
    ensures r[role] == text
    ensures forall k | k in roles && k != role :: r[k] == roles[k]
  {
    roles[role := text]
  }

  /** Deleting a role removes that key, and only that key; a missing key is a no-op. */
  function DeleteRole(roles: map<string, string>, role: string): (r: map<string, string>)
    ensures r.Keys == roles.Keys - {role}
    ensures forall k | k in r :: r[k] == roles[k]
  {
    roles - {role}
  }

  /** Deleting a role that was just added restores the table. */
  lemma DeleteUndoesAdd(roles: map<string, string>, input: string)
    requires !AllSpace(input) && Trim(input) !in roles
    ensures DeleteRole(AddRole(roles, input), Trim(input)) == roles
  {
    var r := DeleteRole(AddRole(roles, input), Trim(input));
    assert r.Keys == roles.Keys;
  }
}
