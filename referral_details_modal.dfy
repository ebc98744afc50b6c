/** The referral application modal: the fallback chains that find the
    approved code and discount in whichever field the API filled, the status
    colour, and which parts of the modal render. */
module ReferralDetailsModal {
  import opened Common
  import opened Json

  /** An application: its typed fields, and the untyped object the fallback
      chains read with `(application as any).…` */
  datatype Application = Application(status: string, adminNotes: Option<string>, raw: map<string, Json>)

  /** `obj.key` on a parsed object; a missing key (undefined) reads as JNull,
      which has the same truthiness */
  function Member(v: Json, key: string): (r: Json)
    ensures v.JObj? && key in v.fields ==> r == v.fields[key]
    ensures !(v.JObj? && key in v.fields) ==> r == JNull
  {
    if v.JObj? && key in v.fields then v.fields[key] else JNull
  }

  /** `a || b || … || null`: the first truthy candidate, None for `null` */
  function FirstTruthy(candidates: seq<Json>): (r: Option<Json>)
    ensures r.None? <==> forall i :: 0 <= i < |candidates| ==> !Truthy(candidates[i])
    ensures r.Some? ==> Truthy(r.value)
    ensures r.Some? ==> exists i :: 0 <= i < |candidates| && candidates[i] == r.value &&
                          forall j :: 0 <= j < i ==> !Truthy(candidates[j])
  {
    if candidates == [] then None
    else if Truthy(candidates[0]) then Some(candidates[0])
    else
      var rest := FirstTruthy(candidates[1..]);
      if rest.Some? then
        ghost var k :| 0 <= k < |candidates[1..]| && candidates[1..][k] == rest.value &&
                       forall j :: 0 <= j < k ==> !Truthy(candidates[1..][j]);
        assert candidates[k + 1] == rest.value;
        rest
      else
        rest
  }

  /** The candidates of the code, in the order they are tried */
  function CodeCandidates(app: Application): seq<Json> {
    var data := Member(JObj(app.raw), "referralCodeData");
    [Member(data, "code"), Member(JObj(app.raw), "approvedCode"),
     Member(JObj(app.raw), "referralCode"), Member(JObj(app.raw), "code")]
  }

  /** The candidates of the discount, in the order they are tried */
  function DiscountCandidates(app: Application): seq<Json> {
    var data := Member(JObj(app.raw), "referralCodeData");
    [Member(data, "discountPercentage"), Member(JObj(app.raw), "discountPercentage"),
     Member(JObj(app.raw), "discount"), Member(JObj(app.raw), "percentage")]
  }

  function ReferralCode(app: Application): Option<Json> {
    FirstTruthy(CodeCandidates(app))
  }

  function Discount(app: Application): Option<Json> {
    FirstTruthy(DiscountCandidates(app))
  }

  /** A code nested under `referralCodeData` wins over every flat field */
  lemma NestedCodeWins(app: Application, code: string)
    requires "referralCodeData" in app.raw && app.raw["referralCodeData"].JObj?
    requires "code" in app.raw["referralCodeData"].fields
    requires app.raw["referralCodeData"].fields["code"] == JStr(code) && code != ""
    ensures ReferralCode(app) == Some(JStr(code))
    ensures Panel(app).code == code
  {
  }

  /** Without nested data, a flat `approvedCode` is used before `referralCode` and `code` */
  lemma FlatCodeOrder(app: Application, code: string)
    requires "referralCodeData" !in app.raw
    requires "approvedCode" in app.raw && app.raw["approvedCode"] == JStr(code) && code != ""
    ensures ReferralCode(app) == Some(JStr(code))
    ensures Panel(app).code == code
  {
    var cs := CodeCandidates(app);
    assert !Truthy(cs[0]) && cs[1..][0] == JStr(code);
  }

  /** A discount of 0 counts as missing: with every discount field 0 or
      absent the modal has no discount */
  lemma ZeroDiscountIsMissing(app: Application)
    requires forall i :: 0 <= i < 4 ==> DiscountCandidates(app)[i] in {JNull, JNum(0)}
    ensures Discount(app).None?
  {
    var cs := DiscountCandidates(app);
    forall i | 0 <= i < |cs| ensures !Truthy(cs[i]) {
      assert cs[i] in {JNull, JNum(0)};
    }
  }

  /** `getStatusColor` */
  function StatusColor(status: string): (color: string)
    ensures status == "approved" ==> color == "bg-green-100 text-green-800"
    ensures status == "rejected" ==> color == "bg-red-100 text-red-800"
    ensures color == "bg-yellow-100 text-yellow-800" <==> status != "approved" && status != "rejected"
  {
    if status == "approved" then "bg-green-100 text-green-800"
    else if status == "rejected" then "bg-red-100 text-red-800"
    else "bg-yellow-100 text-yellow-800"
  }

  /** What React renders for a scalar child: strings as they are, numbers
      in decimal, booleans and null as nothing */
  function ChildText(v: Json): string {
    match v
    case JStr(s) => s
    case JNum(n) => IntToString(n)
    case _ => ""
  }

  /** The green panel: the code or 'N/A', the discount with '%' or 'N/A' */
  datatype CodePanel = CodePanel(code: string, discount: string)

  function Panel(app: Application): (panel: CodePanel)
    ensures ReferralCode(app).None? ==> panel.code == "N/A"
    ensures ReferralCode(app).Some? ==> panel.code == ChildText(ReferralCode(app).value)
    ensures Discount(app).None? <==> panel.discount == "N/A"
    ensures Discount(app).Some? ==> panel.discount == ToJsString(Discount(app).value) + "%"
  {
    var code := ReferralCode(app);
    var discount := Discount(app);
    CodePanel(if code.Some? then ChildText(code.value) else "N/A",
              if discount.Some? then
                var text := ToJsString(discount.value) + "%";
                assert text[|text| - 1] == '%';
                text
              else "N/A")
  }

  /** The parts of the modal that render */
  datatype ModalView =
    | Hidden
    | Shown(status: string, statusColor: string, panel: Option<CodePanel>, notes: Option<string>)

  function Render(isOpen: bool, application: Option<Application>): (view: ModalView)
    ensures view.Hidden? <==> !isOpen || application.None?
    ensures view.Shown? ==> view.status == application.value.status &&
                            view.statusColor == StatusColor(application.value.status)
    ensures view.Shown? ==> (view.panel.Some? <==> application.value.status == "approved")
    ensures view.Shown? && view.panel.Some? ==> view.panel.value == Panel(application.value)
    ensures view.Shown? ==> (view.notes.Some? <==> StrTruthy(application.value.adminNotes))
    ensures view.Shown? && view.notes.Some? ==> view.notes == application.value.adminNotes
  {
    if !isOpen || application.None? then Hidden
    else
      var app := application.value;
      Shown(app.status, StatusColor(app.status),
            if app.status == "approved" then Some(Panel(app)) else None,
            if StrTruthy(app.adminNotes) then app.adminNotes else None)
  }
}
