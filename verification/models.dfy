/** The records of the directory API and their `from_dict` conversions. A record
    holds the values it was given as they were decoded: Python's dataclasses do
    not check the annotated field types, so a field annotated `str` holds
    whatever JSON value the key carried. A conversion raises AttributeError when
    it is handed something other than a dict (`.get` is missing), and TypeError
    when a list-valued field holds a value that cannot be iterated. */
module Models {
  import opened Python
  import opened Exceptions

  /** `iter(v)`: a list yields its items, a string its one-character strings and a
      dict its keys; anything else raises TypeError. */
  function Iterate(v: Json): (r: Outcome<seq<Json>>)
    ensures r.Ok? <==> v.JList? || v.JStr? || v.JObj?
    ensures r.Err? ==> r.error == TypeError
    ensures v.JList? ==> r == Ok(v.items)
    ensures v.JStr? ==> |r.value| == |v.s| && forall k :: 0 <= k < |v.s| ==> r.value[k] == JStr([v.s[k]])
    ensures v.JObj? ==> |r.value| == |v.members| &&
                        forall k :: 0 <= k < |v.members| ==> r.value[k] == JStr(v.members[k].0)
  {
    match v
    case JList(items) => Ok(items)
    case JStr(s) => Ok(seq(|s|, k requires 0 <= k < |s| => JStr([s[k]])))
    case JObj(members) => Ok(seq(|members|, k requires 0 <= k < |members| => JStr(members[k].0)))
    case _ => Err(TypeError)
  }

  /** `list(v or [])`. */
  function ListOrEmpty(v: Json): (r: Outcome<seq<Json>>)
    ensures !Truthy(v) ==> r == Ok([])
    ensures v.JList? ==> r == Ok(v.items)
    ensures r.Err? <==> v == JBool(true) || (v.JInt? && v.i != 0)
  {
    if Truthy(v) then Iterate(v) else Ok([])
  }

  /** A list comprehension over a conversion that may raise: each entry in order,
      stopping at the first that raises. */
  function ConvertEach<T>(entries: seq<Json>, convert: Json -> Outcome<T>): (r: Outcome<seq<T>>)
    ensures r.Ok? <==> forall i :: 0 <= i < |entries| ==> convert(entries[i]).Ok?
    ensures r.Ok? ==> |r.value| == |entries| &&
                      forall i :: 0 <= i < |entries| ==> r.value[i] == convert(entries[i]).value
    ensures r.Err? ==> exists i :: 0 <= i < |entries| && convert(entries[i]) == Err(r.error) &&
                                   forall j :: 0 <= j < i ==> convert(entries[j]).Ok?
    decreases |entries|
  {
    if entries == [] then Ok([])
    else
      var head :- convert(entries[0]);
      var tail := ConvertEach(entries[1..], convert);
      if tail.Err? then
        assert exists i :: 0 < i < |entries| && convert(entries[i]) == Err(tail.error) &&
                           forall j :: 0 <= j < i ==> convert(entries[j]).Ok? by {
          var i :| 0 <= i < |entries[1..]| && convert(entries[1..][i]) == Err(tail.error) &&
                   forall j :: 0 <= j < i ==> convert(entries[1..][j]).Ok?;
          assert convert(entries[i + 1]) == Err(tail.error);
          forall j | 0 <= j < i + 1 ensures convert(entries[j]).Ok? {
            if j > 0 { assert entries[j] == entries[1..][j - 1]; }
          }
        }
        Err(tail.error)
      else
        assert forall i :: 0 < i < |entries| ==> entries[i] == entries[1..][i - 1];
        Ok([head] + tail.value)
  }

  /** Field `field` was taken from `key`: its value when present, `default` when absent. */
  predicate TakenFrom(members: seq<(string, Json)>, key: string, default: Json, field: Json) {
    match Lookup(members, key)
    case Some(v) => field == v
    case None => field == default
  }

  // ---------------------------------------------------------------------------
  // ProjectInstitutionLink

  datatype ProjectInstitutionLink = ProjectInstitutionLink(projektname: Json, einrichtungsId: Json, link: Json)

  function LinkFromDict(data: Json): (r: Outcome<ProjectInstitutionLink>)
    ensures r.Ok? <==> data.JObj?
    ensures r.Err? ==> r.error == AttributeError
  {
    match data
    case JObj(m) =>
      Ok(ProjectInstitutionLink(
        projektname := Get(m, "projektname", JStr("")),
        einrichtungsId := Get(m, "einrichtungsId", JStr("")),
        link := Get(m, "link", JStr(""))))
    case _ => Err(AttributeError)
  }

  /** `projektname`, `einrichtungsId` and `link` are copied, and each missing one is "". */
  lemma LinkFields(m: seq<(string, Json)>)
    ensures var r := LinkFromDict(JObj(m));
            && r.Ok?
            && TakenFrom(m, "projektname", JStr(""), r.value.projektname)
            && TakenFrom(m, "einrichtungsId", JStr(""), r.value.einrichtungsId)
            && TakenFrom(m, "link", JStr(""), r.value.link)
  {
  }

  // ---------------------------------------------------------------------------
  // InstitutionAddress

  datatype InstitutionAddress = InstitutionAddress(
    typ: Json, strasse: Json, plz: Json, ort: Json, land: Json, postfach: Json,
    adresszusatz: Json, co: Json, person: Json, kennung: Json, postverteilschluessel: Json,
    adressat1: Json, adressat2: Json, adressat3: Json, adressat4: Json, name: Json,
    geerbt: Json, personLink: Json)

  /** The keys an address is read from, one per field and named like it. */
  const AddressKeys: seq<string> :=
    ["typ", "strasse", "plz", "ort", "land", "postfach", "adresszusatz", "co", "person",
     "kennung", "postverteilschluessel", "adressat1", "adressat2", "adressat3", "adressat4",
     "name", "geerbt", "person_link"]

  /** The fields of an address in the order of `AddressKeys`. */
  function AddressValues(a: InstitutionAddress): seq<Json> {
    [a.typ, a.strasse, a.plz, a.ort, a.land, a.postfach, a.adresszusatz, a.co, a.person,
     a.kennung, a.postverteilschluessel, a.adressat1, a.adressat2, a.adressat3, a.adressat4,
     a.name, a.geerbt, a.personLink]
  }

  function AddressFromDict(data: Json): (r: Outcome<InstitutionAddress>)
    ensures r.Ok? <==> data.JObj?
    ensures r.Err? ==> r.error == AttributeError
  {
    match data
    case JObj(m) =>
      Ok(InstitutionAddress(
        typ := Get(m, "typ"), strasse := Get(m, "strasse"), plz := Get(m, "plz"),
        ort := Get(m, "ort"), land := Get(m, "land"), postfach := Get(m, "postfach"),
        adresszusatz := Get(m, "adresszusatz"), co := Get(m, "co"), person := Get(m, "person"),
        kennung := Get(m, "kennung"), postverteilschluessel := Get(m, "postverteilschluessel"),
        adressat1 := Get(m, "adressat1"), adressat2 := Get(m, "adressat2"),
        adressat3 := Get(m, "adressat3"), adressat4 := Get(m, "adressat4"),
        name := Get(m, "name"), geerbt := Get(m, "geerbt"), personLink := Get(m, "person_link")))
    case _ => Err(AttributeError)
  }

  /** Each of the 18 fields comes from its own key, and is None when the key is absent. */
  lemma AddressFields(m: seq<(string, Json)>)
    ensures AddressFromDict(JObj(m)).Ok?
    ensures var values := AddressValues(AddressFromDict(JObj(m)).value);
            |values| == |AddressKeys| &&
            forall i | 0 <= i < |AddressKeys| :: TakenFrom(m, AddressKeys[i], JNull, values[i])
  {
  }

  /** No field depends on any key outside the 18. */
  lemma AddressReadsOnlyItsKeys(m: seq<(string, Json)>, n: seq<(string, Json)>)
    requires forall key | key in AddressKeys :: Lookup(m, key) == Lookup(n, key)
    ensures AddressFromDict(JObj(m)) == AddressFromDict(JObj(n))
  {
    AddressFields(m);
    AddressFields(n);
    var a, b := AddressFromDict(JObj(m)).value, AddressFromDict(JObj(n)).value;
    forall i | 0 <= i < |AddressKeys| ensures AddressValues(a)[i] == AddressValues(b)[i] {
      assert AddressKeys[i] in AddressKeys;
    }
    assert AddressValues(a) == AddressValues(b);
  }

  // ---------------------------------------------------------------------------
  // Institution

  datatype Institution = Institution(
    lrzId: Json, name: Json, parentIds: seq<Json>, parentLinks: seq<Json>,
    bezeichnung: Json, nutzerklasse: Json, mwnintern: Json, kostenabrechnung: seq<Json>,
    einrichtungsart: Json, einrichtungstyp: Json, adsorgpraefix: Json, status: Json,
    importiert: Json, anschriften: seq<InstitutionAddress>, chefLrzId: Json, chefLinks: seq<Json>)

  function InstitutionFromDict(data: Json): (r: Outcome<Institution>)
    ensures !data.JObj? ==> r == Err(AttributeError)
    ensures r.Err? ==> r.error == AttributeError || r.error == TypeError
  {
    match data
    case JObj(m) =>
      var parentIds :- ListOrEmpty(Get(m, "parent_lrzId", JList([])));
      var parentLinks :- ListOrEmpty(Get(m, "parent_link", JList([])));
      var kostenabrechnung :- ListOrEmpty(Get(m, "kostenabrechnung", JList([])));
      var entries :- Iterate(Get(m, "anschriften", JList([])));
      var anschriften :- ConvertEach(entries, AddressFromDict);
      var chefLinks :- ListOrEmpty(Get(m, "chef_link", JList([])));
      Ok(Institution(
        lrzId := Get(m, "LRZid", JStr("")), name := Get(m, "name"),
        parentIds := parentIds, parentLinks := parentLinks,
        bezeichnung := Get(m, "bezeichnung"), nutzerklasse := Get(m, "nutzerklasse"),
        mwnintern := Get(m, "mwnintern"), kostenabrechnung := kostenabrechnung,
        einrichtungsart := Get(m, "einrichtungsart"), einrichtungstyp := Get(m, "einrichtungstyp"),
        adsorgpraefix := Get(m, "adsorgpraefix"), status := Get(m, "status"),
        importiert := Get(m, "importiert"), anschriften := anschriften,
        chefLrzId := Get(m, "chef_lrzId"), chefLinks := chefLinks))
    case _ => Err(AttributeError)
  }

  /** A value a list-valued field accepts without raising: absent, null or a list. */
  predicate ListShaped(m: seq<(string, Json)>, key: string) {
    match Lookup(m, key)
    case None => true
    case Some(v) => v.JNull? || v.JList?
  }

  /** The list sent under `key`, or [] when it is absent or not a list. */
  function SentList(m: seq<(string, Json)>, key: string): seq<Json> {
    match Lookup(m, key)
    case Some(JList(items)) => items
    case _ => []
  }

  /** The four list-valued keys that are guarded with `or []` accept what they are given. */
  predicate ListKeysShaped(m: seq<(string, Json)>) {
    && ListShaped(m, "parent_lrzId") && ListShaped(m, "parent_link")
    && ListShaped(m, "kostenabrechnung") && ListShaped(m, "chef_link")
  }

  /** The shape of an institution as the API sends it: list-valued keys absent,
      null or lists, and `anschriften` absent or a list of dicts. */
  predicate InstitutionShaped(m: seq<(string, Json)>) {
    && ListKeysShaped(m)
    && match Lookup(m, "anschriften")
       case None => true
       case Some(v) => v.JList? && forall i :: 0 <= i < |v.items| ==> v.items[i].JObj?
  }

  /** An institution-shaped dict converts without raising. Its list-valued
      fields are order-preserving copies of the lists sent, and [] when the key
      is absent or null. Its addresses are converted one per entry, in order.
      `lrz_id` comes from `LRZid`, defaulting to "", `chef_lrz_id` from
      `chef_lrzId`, and every other scalar field from its own key, None when
      the key is absent. */
  lemma InstitutionFields(m: seq<(string, Json)>)
    requires InstitutionShaped(m)
    ensures InstitutionFromDict(JObj(m)).Ok?
    ensures var inst := InstitutionFromDict(JObj(m)).value;
            && TakenFrom(m, "LRZid", JStr(""), inst.lrzId)
            && TakenFrom(m, "chef_lrzId", JNull, inst.chefLrzId)
            && TakenFrom(m, "name", JNull, inst.name)
            && TakenFrom(m, "bezeichnung", JNull, inst.bezeichnung)
            && TakenFrom(m, "nutzerklasse", JNull, inst.nutzerklasse)
            && TakenFrom(m, "mwnintern", JNull, inst.mwnintern)
            && TakenFrom(m, "einrichtungsart", JNull, inst.einrichtungsart)
            && TakenFrom(m, "einrichtungstyp", JNull, inst.einrichtungstyp)
            && TakenFrom(m, "adsorgpraefix", JNull, inst.adsorgpraefix)
            && TakenFrom(m, "status", JNull, inst.status)
            && TakenFrom(m, "importiert", JNull, inst.importiert)
            && inst.parentIds == SentList(m, "parent_lrzId")
            && inst.parentLinks == SentList(m, "parent_link")
            && inst.kostenabrechnung == SentList(m, "kostenabrechnung")
            && inst.chefLinks == SentList(m, "chef_link")
            && |inst.anschriften| == |SentList(m, "anschriften")|
            && forall i :: 0 <= i < |inst.anschriften| ==>
                 inst.anschriften[i] == AddressFromDict(SentList(m, "anschriften")[i]).value
  {
    GuardedListIsSent(m, "parent_lrzId");
    GuardedListIsSent(m, "parent_link");
    GuardedListIsSent(m, "kostenabrechnung");
    GuardedListIsSent(m, "chef_link");
    var entries := SentList(m, "anschriften");
    assert Iterate(Get(m, "anschriften", JList([]))) == Ok(entries);
    assert forall i :: 0 <= i < |entries| ==> AddressFromDict(entries[i]).Ok?;
  }

  /** A guarded list-valued key yields the list sent, or [] when absent or null. */
  lemma GuardedListIsSent(m: seq<(string, Json)>, key: string)
    requires ListShaped(m, key)
    ensures ListOrEmpty(Get(m, key, JList([]))) == Ok(SentList(m, key))
  {
  }

  /** `anschriften` has no `or []` guard: a null value raises TypeError, unlike
      the other list-valued keys. */
  lemma NullAddressesRaise(m: seq<(string, Json)>)
    requires ListKeysShaped(m)
    requires Lookup(m, "anschriften") == Some(JNull)
    ensures InstitutionFromDict(JObj(m)) == Err(TypeError)
  {
  }

  // ---------------------------------------------------------------------------
  // Person

  datatype Person = Person(
    lrzId: Json, benutzername: Json, anrede: Json, rufname: Json, nachname: Json,
    titelPre: Json, titelPost: Json, geschlecht: Json, kennungen: seq<Json>, status: Json)

  function PersonFromDict(data: Json): (r: Outcome<Person>)
    ensures !data.JObj? ==> r == Err(AttributeError)
    ensures data.JObj? ==> (r.Ok? <==> ListOrEmpty(Get(data.members, "kennungen", JList([]))).Ok?)
  {
    match data
    case JObj(m) =>
      var kennungen :- ListOrEmpty(Get(m, "kennungen", JList([])));
      Ok(Person(
        lrzId := Get(m, "LRZid", JStr("")), benutzername := Get(m, "benutzername"),
        anrede := Get(m, "anrede"), rufname := Get(m, "rufname"), nachname := Get(m, "nachname"),
        titelPre := Get(m, "titelPre"), titelPost := Get(m, "titelPost"),
        geschlecht := Get(m, "geschlecht"), kennungen := kennungen, status := Get(m, "status")))
    case _ => Err(AttributeError)
  }

  /** `lrz_id` from `LRZid` (default ""), `titel_pre`/`titel_post` from
      `titelPre`/`titelPost`, every other scalar from its own key (default
      None), and `kennungen` copied in order (default []). */
  lemma PersonFields(m: seq<(string, Json)>)
    requires ListShaped(m, "kennungen")
    ensures PersonFromDict(JObj(m)).Ok?
    ensures var p := PersonFromDict(JObj(m)).value;
            && TakenFrom(m, "LRZid", JStr(""), p.lrzId)
            && TakenFrom(m, "benutzername", JNull, p.benutzername)
            && TakenFrom(m, "anrede", JNull, p.anrede)
            && TakenFrom(m, "rufname", JNull, p.rufname)
            && TakenFrom(m, "nachname", JNull, p.nachname)
            && TakenFrom(m, "titelPre", JNull, p.titelPre)
            && TakenFrom(m, "titelPost", JNull, p.titelPost)
            && TakenFrom(m, "geschlecht", JNull, p.geschlecht)
            && TakenFrom(m, "status", JNull, p.status)
            && p.kennungen == SentList(m, "kennungen")
  {
  }

  // ---------------------------------------------------------------------------
  // User

  datatype User = User(
    kennung: Json, lrzId: Json, status: Json, statusNum: Json, validpwd: Json,
    uid: Json, gid: Json, projekt: Json, kennungstyp: Json, daten: Json)

  function UserFromDict(data: Json): (r: Outcome<User>)
    ensures r.Ok? <==> data.JObj?
    ensures r.Err? ==> r.error == AttributeError
  {
    match data
    case JObj(m) =>
      Ok(User(
        kennung := Get(m, "kennung", JStr("")), lrzId := Get(m, "mwnlrzid"),
        status := Get(m, "status"), statusNum := Get(m, "status_num"),
        validpwd := Get(m, "validpwd"), uid := Get(m, "uid"), gid := Get(m, "gid"),
        projekt := Get(m, "projekt"), kennungstyp := Get(m, "kennungstyp"),
        daten := Get(m, "daten", JObj([]))))
    case _ => Err(AttributeError)
  }

  /** `kennung` (default ""), `lrz_id` from `mwnlrzid`, every other scalar from
      its own key (default None), and `daten` passed through unchanged (default
      {}). */
  lemma UserFields(m: seq<(string, Json)>)
    ensures UserFromDict(JObj(m)).Ok?
    ensures var u := UserFromDict(JObj(m)).value;
            && TakenFrom(m, "kennung", JStr(""), u.kennung)
            && TakenFrom(m, "mwnlrzid", JNull, u.lrzId)
            && TakenFrom(m, "status", JNull, u.status)
            && TakenFrom(m, "status_num", JNull, u.statusNum)
            && TakenFrom(m, "validpwd", JNull, u.validpwd)
            && TakenFrom(m, "uid", JNull, u.uid)
            && TakenFrom(m, "gid", JNull, u.gid)
            && TakenFrom(m, "projekt", JNull, u.projekt)
            && TakenFrom(m, "kennungstyp", JNull, u.kennungstyp)
            && TakenFrom(m, "daten", JObj([]), u.daten)
  {
  }

  // ---------------------------------------------------------------------------
  // Conversions of an empty dict

  /** Converting `{}` never raises: required strings become "", optional fields
      None, list fields [] and `daten` {}. */
  lemma EmptyDictDefaults()
    ensures LinkFromDict(JObj([])) == Ok(ProjectInstitutionLink(JStr(""), JStr(""), JStr("")))
    ensures AddressFromDict(JObj([])) ==
              Ok(InstitutionAddress(JNull, JNull, JNull, JNull, JNull, JNull, JNull, JNull, JNull,
                                    JNull, JNull, JNull, JNull, JNull, JNull, JNull, JNull, JNull))
    ensures InstitutionFromDict(JObj([])) ==
              Ok(Institution(JStr(""), JNull, [], [], JNull, JNull, JNull, [], JNull, JNull,
                             JNull, JNull, JNull, [], JNull, []))
    ensures PersonFromDict(JObj([])) ==
              Ok(Person(JStr(""), JNull, JNull, JNull, JNull, JNull, JNull, JNull, [], JNull))
    ensures UserFromDict(JObj([])) ==
              Ok(User(JStr(""), JNull, JNull, JNull, JNull, JNull, JNull, JNull, JNull, JObj([])))
  {
    EmptyInstitution();
    EmptyPerson();
    EmptyUser();
  }

  lemma EmptyInstitution()
    ensures InstitutionFromDict(JObj([])) ==
              Ok(Institution(JStr(""), JNull, [], [], JNull, JNull, JNull, [], JNull, JNull,
                             JNull, JNull, JNull, [], JNull, []))
  {
  }

  lemma EmptyPerson()
    ensures PersonFromDict(JObj([])) ==
              Ok(Person(JStr(""), JNull, JNull, JNull, JNull, JNull, JNull, JNull, [], JNull))
  {
  }

  lemma EmptyUser()
    ensures UserFromDict(JObj([])) ==
              Ok(User(JStr(""), JNull, JNull, JNull, JNull, JNull, JNull, JNull, JNull, JObj([])))
  {
  }
}
