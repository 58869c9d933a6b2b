/** The sign-up page: a form of named text fields, a FARMER/BUYER switch
    that keeps the `role` field in step, and the submit that picks the
    endpoint and builds the JSON payload. The server's reply is a
    parameter. */
module SignUp {
  import opened Web
  import Text

  /** The form's fields. */
  datatype Field =
    | Fullname | Username | Email | Password | Gender | Role
    | FarmName | FarmLocation | FarmSize | FarmingMethods | ExperienceLevel
    | CropsGrown | LivestockOwned | EquipmentAvailable | Certifications | MarketPreferences

  /** The key a field has in the form state and in the JSON payload. */
  function Key(f: Field): string {
    match f
    case Fullname => "fullname"
    case Username => "username"
    case Email => "email"
    case Password => "password"
    case Gender => "gender"
    case Role => "role"
    case FarmName => "farmName"
    case FarmLocation => "farmLocation"
    case FarmSize => "farmSize"
    case FarmingMethods => "farmingMethods"
    case ExperienceLevel => "experienceLevel"
    case CropsGrown => "cropsGrown"
    case LivestockOwned => "livestockOwned"
    case EquipmentAvailable => "equipmentAvailable"
    case Certifications => "certifications"
    case MarketPreferences => "marketPreferences"
  }

  /** The fields the farmer payload sends as comma-separated lists. */
  predicate IsListField(f: Field) {
    f.CropsGrown? || f.LivestockOwned? || f.EquipmentAvailable? || f.Certifications? || f.MarketPreferences?
  }

  /** The fields the buyer payload sends. */
  predicate IsBuyerField(f: Field) {
    f.Fullname? || f.Username? || f.Email? || f.Password? || f.Gender? || f.Role?
  }

  /** The form state: the text of every field. */
  datatype Form = Form(
    fullname: string, username: string, email: string, password: string, gender: string, role: string,
    farmName: string, farmLocation: string, farmSize: string, farmingMethods: string, experienceLevel: string,
    cropsGrown: string, livestockOwned: string, equipmentAvailable: string, certifications: string,
    marketPreferences: string)

  function Get(form: Form, f: Field): string {
    match f
    case Fullname => form.fullname
    case Username => form.username
    case Email => form.email
    case Password => form.password
    case Gender => form.gender
    case Role => form.role
    case FarmName => form.farmName
    case FarmLocation => form.farmLocation
    case FarmSize => form.farmSize
    case FarmingMethods => form.farmingMethods
    case ExperienceLevel => form.experienceLevel
    case CropsGrown => form.cropsGrown
    case LivestockOwned => form.livestockOwned
    case EquipmentAvailable => form.equipmentAvailable
    case Certifications => form.certifications
    case MarketPreferences => form.marketPreferences
  }

  /** `{ ...form, [key]: value }`: only the named field changes. */
  function Set(form: Form, f: Field, value: string): (r: Form)
    ensures Get(r, f) == value
    ensures forall g: Field :: g != f ==> Get(r, g) == Get(form, g)
  {
    match f
    case Fullname => form.(fullname := value)
    case Username => form.(username := value)
    case Email => form.(email := value)
    case Password => form.(password := value)
    case Gender => form.(gender := value)
    case Role => form.(role := value)
    case FarmName => form.(farmName := value)
    case FarmLocation => form.(farmLocation := value)
    case FarmSize => form.(farmSize := value)
    case FarmingMethods => form.(farmingMethods := value)
    case ExperienceLevel => form.(experienceLevel := value)
    case CropsGrown => form.(cropsGrown := value)
    case LivestockOwned => form.(livestockOwned := value)
    case EquipmentAvailable => form.(equipmentAvailable := value)
    case Certifications => form.(certifications := value)
    case MarketPreferences => form.(marketPreferences := value)
  }

  datatype UserType = Farmer | Buyer

  /** The role a user type registers with. */
  function RoleFor(t: UserType): (r: string)
    ensures t == Farmer <==> r == "FARMER"
    ensures t == Buyer <==> r == "USER"
  {
    match t
    case Farmer => "FARMER"
    case Buyer => "USER"
  }

  /** The cleared form: every field empty except gender MALE and the role of
      the user type. */
  function EmptyForm(t: UserType): (r: Form)
    ensures Get(r, Gender) == "MALE" && Get(r, Role) == RoleFor(t)
    ensures forall f: Field :: f != Gender && f != Role ==> Get(r, f) == ""
  {
    Form("", "", "", "", "MALE", RoleFor(t), "", "", "", "", "", "", "", "", "", "")
  }

  datatype SignUpPage = SignUpPage(userType: UserType, form: Form, error: string, loading: bool)

  const Initial := SignUpPage(Farmer, EmptyForm(Farmer), "", false)

  /** The form's `role` matches the selected user type. */
  predicate RoleInStep(p: SignUpPage) {
    p.form.role == RoleFor(p.userType)
  }

  /** `handleChange`: the input's field takes the typed value; no input is
      named `role`. */
  function Change(p: SignUpPage, f: Field, value: string): (r: SignUpPage)
    requires f != Role
    ensures Get(r.form, f) == value
    ensures forall g: Field :: g != f ==> Get(r.form, g) == Get(p.form, g)
    ensures r.userType == p.userType && r.error == p.error && r.loading == p.loading
  {
    p.(form := Set(p.form, f, value))
  }

  /** `handleUserTypeChange`: switch the user type and set the role to match;
      no other field changes. */
  function ChangeUserType(p: SignUpPage, t: UserType): (r: SignUpPage)
    ensures r.userType == t && RoleInStep(r)
    ensures t == Farmer ==> r.form.role == "FARMER"
    ensures t == Buyer ==> r.form.role == "USER"
    ensures forall g: Field :: g != Role ==> Get(r.form, g) == Get(p.form, g)
  {
    p.(userType := t, form := Set(p.form, Role, RoleFor(t)))
  }

  /** `pieces.map(s => s.trim())`. */
  function TrimEach(pieces: seq<string>): (r: seq<string>)
    ensures |r| == |pieces|
    ensures forall i :: 0 <= i < |r| ==> r[i] == Text.Trim(pieces[i])
  {
    seq(|pieces|, i requires 0 <= i < |pieces| => Text.Trim(pieces[i]))
  }

  /** `s.split(",").map(s => s.trim())`: one piece more than there are
      commas. */
  function CommaList(s: string): (r: seq<string>)
    ensures |r| == Text.CountChar(s, ',') + 1
  {
    TrimEach(Text.Split(s, ','))
  }

  /** Each list piece is the corresponding comma-separated piece of the text
      with only whitespace removed around it; it holds no comma and neither
      starts nor ends with whitespace. */
  lemma CommaListPieces(s: string, i: int)
    requires 0 <= i < |CommaList(s)|
    ensures var r := CommaList(s)[i];
      && |CommaList(s)| == |Text.Split(s, ',')|
      && Text.PaddedAt(Text.Split(s, ',')[i], r, Text.TrimOffset(Text.Split(s, ',')[i]))
      && ',' !in r
      && (|r| > 0 ==> !Text.IsWhitespace(r[0]) && !Text.IsWhitespace(r[|r| - 1]))
  {
    Text.TrimKeepsAbsent(Text.Split(s, ',')[i], ',');
  }

  /** An empty list field is sent as a list of one empty string. */
  lemma EmptyCommaList()
    ensures CommaList("") == [""]
  {
    assert Text.Split("", ',') == [""];
    assert Text.Trim("") == "";
  }

  /** A JSON value of the payload. `Number` carries the text handed to
      `parseFloat` (the parsing itself is not modelled). */
  datatype Json = Str(s: string) | StrList(items: seq<string>) | Number(text: string)

  /** A JSON object by key. */
  type Payload = map<string, Json>

  datatype Request = Request(endpoint: string, payload: Payload)

  /** No two fields share a key. */
  lemma KeysDistinct(f: Field, g: Field)
    requires f != g
    ensures Key(f) != Key(g)
  {
  }

  /** The JSON object holding `value(f)` under the key of each listed field,
      and nothing else. */
  function Object(fields: seq<Field>, value: Field -> Json): (r: Payload)
    ensures forall f :: f in fields ==> Key(f) in r && r[Key(f)] == value(f)
    ensures forall f :: f !in fields ==> Key(f) !in r
  {
    if |fields| == 0 then map[]
    else
      var last := fields[|fields| - 1];
      var prefix := fields[..|fields| - 1];
      var r := Object(prefix, value)[Key(last) := value(last)];
      assert fields == prefix + [last];
      forall f | f != last
        ensures Key(f) != Key(last)
      {
        KeysDistinct(f, last);
      }
      r
  }

  /** Every field of the form, in the order the form declares them. */
  const AllFields: seq<Field> := [
    Fullname, Username, Email, Password, Gender, Role,
    FarmName, FarmLocation, FarmSize, FarmingMethods, ExperienceLevel,
    CropsGrown, LivestockOwned, EquipmentAvailable, Certifications, MarketPreferences]

  lemma FieldListed(f: Field)
    ensures f in AllFields
  {
    var i := match f
      case Fullname => 0 case Username => 1 case Email => 2 case Password => 3
      case Gender => 4 case Role => 5 case FarmName => 6 case FarmLocation => 7
      case FarmSize => 8 case FarmingMethods => 9 case ExperienceLevel => 10 case CropsGrown => 11
      case LivestockOwned => 12 case EquipmentAvailable => 13 case Certifications => 14
      case MarketPreferences => 15;
    assert AllFields[i] == f;
  }

  /** The fields the buyer payload sends. */
  const BuyerFields: seq<Field> := [Fullname, Username, Email, Password, Gender, Role]

  /** The JSON value a field has in the farmer payload: the five list fields
      split on commas and trimmed, farm size as a number, the rest as typed. */
  function FarmerValue(form: Form, f: Field): (r: Json)
    ensures IsListField(f) ==> r == StrList(CommaList(Get(form, f)))
    ensures f == FarmSize ==> r == Number(form.farmSize)
    ensures !IsListField(f) && f != FarmSize ==> r == Str(Get(form, f))
  {
    if IsListField(f) then StrList(CommaList(Get(form, f)))
    else if f == FarmSize then Number(form.farmSize)
    else Str(Get(form, f))
  }

  /** The JSON value a field has in the buyer payload: the role is USER
      whatever the form holds. */
  function BuyerValue(form: Form, f: Field): (r: Json)
    ensures f == Role ==> r == Str("USER")
    ensures f != Role ==> r == Str(Get(form, f))
  {
    if f == Role then Str("USER") else Str(Get(form, f))
  }

  /** The farmer payload: every form field. */
  function FarmerPayload(form: Form): (r: Payload)
    ensures forall f: Field :: Key(f) in r && r[Key(f)] == FarmerValue(form, f)
  {
    var r := Object(AllFields, f => FarmerValue(form, f));
    forall f: Field
      ensures Key(f) in r && r[Key(f)] == FarmerValue(form, f)
    {
      FieldListed(f);
    }
    r
  }

  /** The buyer payload: only the six account fields. */
  function BuyerPayload(form: Form): (r: Payload)
    ensures forall f: Field :: Key(f) in r <==> IsBuyerField(f)
    ensures forall f: Field :: IsBuyerField(f) ==> r[Key(f)] == BuyerValue(form, f)
  {
    var r := Object(BuyerFields, f => BuyerValue(form, f));
    assert forall f: Field :: IsBuyerField(f) <==> f in BuyerFields;
    r
  }

  /** The request the submit sends for the current user type. */
  function SubmitRequest(p: SignUpPage): (r: Request)
    ensures p.userType == Farmer ==> r == Request("/api/farmers/register", FarmerPayload(p.form))
    ensures p.userType == Buyer ==> r == Request("/api/user/sign-up", BuyerPayload(p.form))
  {
    match p.userType
    case Farmer => Request("/api/farmers/register", FarmerPayload(p.form))
    case Buyer => Request("/api/user/sign-up", BuyerPayload(p.form))
  }

  /** The outcome of the request: success, a non-ok response with its body
      text, or a value thrown on the way (by `fetch` or by reading the
      reply). */
  datatype SubmitReply = Registered | Rejected(body: string) | Threw(err: Thrown)

  /** The error text a failed submit shows: a rejected request shows the
      response text, or "Registration failed" when that is empty; a thrown
      Error shows its message as is; anything else thrown shows
      "Registration failed". */
  function FailureText(reply: SubmitReply): (r: string)
    requires !reply.Registered?
    ensures reply.Rejected? ==> r != "" && (reply.body != "" ==> r == reply.body)
    ensures reply.Threw? && reply.err.ErrorValue? ==> r == reply.err.message
    ensures reply == Threw(NonError) || reply == Rejected("") ==> r == "Registration failed"
  {
    match reply
    case Rejected(body) => if body != "" then body else "Registration failed"
    case Threw(ErrorValue(message)) => message
    case Threw(NonError) => "Registration failed"
  }

  /** `handleSubmit`: on success the form is cleared for the current user
      type; on failure the form is kept and the error is shown. Loading ends
      either way. */
  function Submit(p: SignUpPage, reply: SubmitReply): (r: (SignUpPage, Request))
    ensures r.1 == SubmitRequest(p)
    ensures !r.0.loading && r.0.userType == p.userType
    ensures reply.Registered? ==> r.0.form == EmptyForm(p.userType) && r.0.error == ""
    ensures !reply.Registered? ==> r.0.form == p.form && r.0.error == FailureText(reply)
  {
    var req := SubmitRequest(p);
    if reply.Registered? then (p.(form := EmptyForm(p.userType), error := "", loading := false), req)
    else (p.(error := FailureText(reply), loading := false), req)
  }

  /** The role stays in step with the user type through every step the page
      can take: typing into an input, switching the user type, and
      submitting. */
  lemma RoleStaysInStep(p: SignUpPage, f: Field, value: string, t: UserType, reply: SubmitReply)
    requires RoleInStep(p)
    requires f != Role
    ensures RoleInStep(Initial)
    ensures RoleInStep(Change(p, f, value))
    ensures RoleInStep(ChangeUserType(p, t))
    ensures RoleInStep(Submit(p, reply).0)
  {
  }

  /** Whatever the form holds, a buyer registers with role USER and a farmer
      with the role the form holds, which is FARMER while the role is in
      step. */
  lemma SubmittedRole(p: SignUpPage)
    requires RoleInStep(p)
    ensures Key(Role) in SubmitRequest(p).payload
    ensures SubmitRequest(p).payload[Key(Role)] == Str(RoleFor(p.userType))
  {
    if p.userType == Farmer {
      assert FarmerValue(p.form, Role) == Str(p.form.role);
    }
  }
}
