/** The button routes of routes/buttons.js: request validation, the WhatsApp
    link derivation and the handlers, each handler a call sequence on the
    store. The caller's id is what the authentication middleware put in
    `req.user.id`; `now` is the clock.
 */
module Buttons {
  import opened Values
  import opened Sequences
  import opened Text
  import opened Store
  import opened Http

  /** The JSON body of a create or update request; a field the body lacks
      is `None`. */
  datatype Request = Request(
    name: Option<string>,
    linkType: Option<string>,
    linkUrl: Option<string>,
    whatsappDdd: Option<string>,
    whatsappNumber: Option<string>,
    position: Option<string>)

  /** The validators of the create route, in declaration order. */
  datatype FieldError = NameRequired | InvalidLinkType | InvalidPosition | UrlRequired | DddRequired | NumberRequired

  function Issue(e: FieldError): FieldIssue {
    match e
    case NameRequired => FieldIssue("name", "Nome é obrigatório")
    case InvalidLinkType => FieldIssue("link_type", "Tipo de link inválido")
    case InvalidPosition => FieldIssue("position", "Posição inválida")
    case UrlRequired => FieldIssue("link_url", "URL é obrigatória para tipo URL")
    case DddRequired => FieldIssue("whatsapp_ddd", "DDD é obrigatório")
    case NumberRequired => FieldIssue("whatsapp_number", "Número é obrigatório")
  }

  function Issues(es: seq<FieldError>): (r: seq<FieldIssue>)
    ensures |r| == |es|
  {
    seq(|es|, k requires 0 <= k < |es| => Issue(es[k]))
  }

  const LinkTypes: seq<string> := ["url", "whatsapp"]
  const Positions: seq<string> := ["bottom-right", "bottom-left", "top-right", "top-left"]

  /** What `\s` matches, the characters `trim()` removes. */
  predicate IsJsSpace(c: char) {
    var n := c as int;
    n == 0x20 || 0x09 <= n <= 0x0D || n == 0xA0 || n == 0x1680 || 0x2000 <= n <= 0x200A
    || n == 0x2028 || n == 0x2029 || n == 0x202F || n == 0x205F || n == 0x3000 || n == 0xFEFF
  }

  function TrimStart(s: string): (r: string)
    ensures |r| <= |s| && r == s[|s| - |r|..]
    ensures |r| > 0 ==> !IsJsSpace(r[0])
    ensures forall k :: 0 <= k < |s| - |r| ==> IsJsSpace(s[k])
    decreases |s|
  {
    if |s| > 0 && IsJsSpace(s[0]) then TrimStart(s[1..]) else s
  }

  function TrimEnd(s: string): (r: string)
    ensures |r| <= |s| && r == s[..|r|]
    ensures |r| > 0 ==> !IsJsSpace(r[|r| - 1])
    ensures forall k :: |r| <= k < |s| ==> IsJsSpace(s[k])
    decreases |s|
  {
    if |s| > 0 && IsJsSpace(s[|s| - 1]) then TrimEnd(s[..|s| - 1]) else s
  }

  /** How many whitespace characters `s` starts with. */
  function LeadingSpaces(s: string): (n: nat)
    ensures n <= |s|
    ensures forall k :: 0 <= k < n ==> IsJsSpace(s[k])
    ensures n < |s| ==> !IsJsSpace(s[n])
  {
    |s| - |TrimStart(s)|
  }

  /** Trimming leaves the slice of `s` after its leading whitespace. */
  lemma TrimSlice(s: string)
    ensures var a := TrimStart(s); var r := TrimEnd(a); var n := |s| - |a|;
      r == s[n..n + |r|]
  {
    var a := TrimStart(s);
    var r := TrimEnd(a);
    var n := |s| - |a|;
    assert a == s[n..];
    assert r == a[..|r|];
  }

  /** What follows the trimmed slice is whitespace. */
  lemma TrimTail(s: string)
    ensures var a := TrimStart(s); var r := TrimEnd(a); var n := |s| - |a|;
      forall k :: n + |r| <= k < |s| ==> IsJsSpace(s[k])
  {
    var a := TrimStart(s);
    var r := TrimEnd(a);
    var n := |s| - |a|;
    forall k | n + |r| <= k < |s| ensures IsJsSpace(s[k]) {
      assert s[k] == a[k - n];
    }
  }

  lemma TrimAllSpace(s: string)
    ensures TrimEnd(TrimStart(s)) == "" <==> forall k :: 0 <= k < |s| ==> IsJsSpace(s[k])
  {
    var a := TrimStart(s);
    var n := |s| - |a|;
    if TrimEnd(a) == "" {
      assert |a| == 0;
    }
  }

  /** The `trim()` sanitizer: `s` without its leading and trailing
      whitespace. The result is the part of `s` between a whitespace prefix
      and a whitespace suffix, starts and ends with a non-space, and is
      empty exactly when `s` is all whitespace. */
  function Trim(s: string): (r: string)
    ensures |r| > 0 ==> !IsJsSpace(r[0]) && !IsJsSpace(r[|r| - 1])
    ensures r == "" <==> forall k :: 0 <= k < |s| ==> IsJsSpace(s[k])
    ensures LeadingSpaces(s) + |r| <= |s| && r == s[LeadingSpaces(s)..LeadingSpaces(s) + |r|]
    ensures forall k :: LeadingSpaces(s) + |r| <= k < |s| ==> IsJsSpace(s[k])
  {
    TrimSlice(s);
    TrimTail(s);
    TrimAllSpace(s);
    assert LeadingSpaces(s) == |s| - |TrimStart(s)|;
    TrimEnd(TrimStart(s))
  }

  lemma TrimIdempotent(s: string)
    ensures Trim(Trim(s)) == Trim(s)
  {
    var r := Trim(s);
    if |r| > 0 {
      assert TrimStart(r) == r;
      assert TrimEnd(r) == r;
    }
  }

  /** express-validator's `notEmpty()`: a missing value reads as `""`. */
  predicate NotEmpty(v: Option<string>) {
    v.Some? && v.value != ""
  }

  predicate IsIn(v: Option<string>, options: seq<string>) {
    v.Some? && v.value in options
  }

  /** `body('name').trim()` rewrites the field before the handler reads it. */
  function TrimmedName(v: Option<string>): (r: Option<string>)
    ensures r.Some? <==> v.Some?
    ensures v.Some? ==> r.value == Trim(v.value)
  {
    if v.Some? then Some(Trim(v.value)) else None
  }

  /** The name, type and position checks both routes share. */
  function CommonErrors(r: Request): seq<FieldError> {
    (if NotEmpty(TrimmedName(r.name)) then [] else [NameRequired])
    + (if IsIn(r.linkType, LinkTypes) then [] else [InvalidLinkType])
    + (if IsIn(r.position, Positions) then [] else [InvalidPosition])
  }

  /** The validators of `POST /` at routes/buttons.js:46-51. */
  function CreateErrors(r: Request): seq<FieldError> {
    CommonErrors(r)
    + (if r.linkType == Some("url") && !NotEmpty(r.linkUrl) then [UrlRequired] else [])
    + (if r.linkType == Some("whatsapp") && !NotEmpty(r.whatsappDdd) then [DddRequired] else [])
    + (if r.linkType == Some("whatsapp") && !NotEmpty(r.whatsappNumber) then [NumberRequired] else [])
  }

  /** The validators of `PUT /:id` at routes/buttons.js:85-87. */
  function UpdateErrors(r: Request): seq<FieldError> {
    CommonErrors(r)
  }

  /** A name passes `trim().notEmpty()` when it has a non-space character. */
  ghost predicate HasVisibleName(v: Option<string>) {
    v.Some? && exists k :: 0 <= k < |v.value| && !IsJsSpace(v.value[k])
  }

  /** The trimmed name passes `notEmpty()` exactly when the submitted name
      has a character that is not whitespace. */
  lemma NameCheck(v: Option<string>)
    ensures NotEmpty(TrimmedName(v)) <==> HasVisibleName(v)
  {
  }

  lemma CommonAccepted(r: Request)
    ensures CommonErrors(r) == [] <==>
              HasVisibleName(r.name)
              && r.linkType.Some? && r.linkType.value in LinkTypes
              && r.position.Some? && r.position.value in Positions
  {
    NameCheck(r.name);
  }

  /** A create request is accepted exactly when every validator passes. */
  lemma CreateAcceptedExactly(r: Request)
    ensures CreateErrors(r) == [] <==>
              HasVisibleName(r.name)
              && r.linkType.Some? && r.linkType.value in LinkTypes
              && r.position.Some? && r.position.value in Positions
              && (r.linkType.value == "url" ==> NotEmpty(r.linkUrl))
              && (r.linkType.value == "whatsapp" ==> NotEmpty(r.whatsappDdd) && NotEmpty(r.whatsappNumber))
  {
    CommonAccepted(r);
    var url := if r.linkType == Some("url") && !NotEmpty(r.linkUrl) then [UrlRequired] else [];
    var ddd := if r.linkType == Some("whatsapp") && !NotEmpty(r.whatsappDdd) then [DddRequired] else [];
    var num := if r.linkType == Some("whatsapp") && !NotEmpty(r.whatsappNumber) then [NumberRequired] else [];
    assert CreateErrors(r) == CommonErrors(r) + url + ddd + num;
    assert |CreateErrors(r)| == |CommonErrors(r)| + |url| + |ddd| + |num|;
  }

  /** An update request is accepted exactly when name, type and position
      pass; the link fields are not looked at. */
  lemma UpdateAcceptedExactly(r: Request, linkUrl: Option<string>, ddd: Option<string>, number: Option<string>)
    ensures UpdateErrors(r) == [] <==>
              HasVisibleName(r.name)
              && r.linkType.Some? && r.linkType.value in LinkTypes
              && r.position.Some? && r.position.value in Positions
    ensures UpdateErrors(r.(linkUrl := linkUrl, whatsappDdd := ddd, whatsappNumber := number)) == UpdateErrors(r)
  {
    CommonAccepted(r);
  }

  /** Every request create accepts, update accepts too. */
  lemma CreateStricterThanUpdate(r: Request)
    ensures CreateErrors(r) == [] ==> UpdateErrors(r) == []
  {
    assert CreateErrors(r) == UpdateErrors(r) + CreateErrors(r)[|UpdateErrors(r)|..];
  }

  /** `s.replace(/\D/g, '')`: the digits of `s`, in order. */
  function StripNonDigits(s: string): (r: string)
    ensures AllDigits(r) && |r| <= |s|
  {
    Filter(s, IsDigit)
  }

  /** Stripping a string of digits changes nothing, so stripping twice is
      stripping once. */
  lemma StripIdempotent(s: string)
    ensures AllDigits(s) ==> StripNonDigits(s) == s
    ensures StripNonDigits(StripNonDigits(s)) == StripNonDigits(s)
  {
    if AllDigits(s) {
      FilterAll(s, IsDigit);
    }
    FilterAll(StripNonDigits(s), IsDigit);
  }

  lemma StripConcat(a: string, b: string)
    ensures StripNonDigits(a + b) == StripNonDigits(a) + StripNonDigits(b)
  {
    FilterConcat(a, b, IsDigit);
  }

  const WhatsAppPrefix: string := "https://wa.me/55"

  /** `https://wa.me/55${ddd}${number}` with the non-digits removed. */
  function WhatsAppLink(ddd: string, number: string): (r: string)
    ensures IsPrefix(WhatsAppPrefix, r)
    ensures AllDigits(r[|WhatsAppPrefix|..])
  {
    var r := WhatsAppPrefix + StripNonDigits(ddd) + StripNonDigits(number);
    assert r[|WhatsAppPrefix|..] == StripNonDigits(ddd) + StripNonDigits(number);
    r
  }

  /** The link after the prefix is exactly the digits of the area code
      followed by the digits of the number, whatever else was typed. */
  lemma WhatsAppLinkDigits(ddd: string, number: string)
    ensures WhatsAppLink(ddd, number)[|WhatsAppPrefix|..] == StripNonDigits(ddd + number)
    ensures WhatsAppLink(ddd, number) == WhatsAppLink(StripNonDigits(ddd), StripNonDigits(number))
  {
    var r := WhatsAppLink(ddd, number);
    assert r[|WhatsAppPrefix|..] == StripNonDigits(ddd) + StripNonDigits(number);
    StripConcat(ddd, number);
    StripIdempotent(ddd);
    StripIdempotent(number);
  }

  /** A single character survives the stripping exactly when it is a digit. */
  lemma StripOne(c: char)
    ensures StripNonDigits([c]) == if IsDigit(c) then [c] else []
  {
    assert [c][1..] == [];
  }

  /** Digits between two separators keep only the digits. */
  lemma StripAround(open: char, d: string, close: char)
    requires !IsDigit(open) && AllDigits(d) && !IsDigit(close)
    ensures StripNonDigits([open] + d + [close]) == d
  {
    StripConcat([open] + d, [close]);
    StripConcat([open], d);
    StripOne(open);
    StripOne(close);
    StripIdempotent(d);
  }

  /** An area code typed as `(11)` and a number typed as `98765-4321` give
      the link of the plain digits: `https://wa.me/5511987654321`. */
  lemma WhatsAppLinkFormatted(ddd: string, first: string, last: string)
    requires AllDigits(ddd) && AllDigits(first) && AllDigits(last)
    ensures WhatsAppLink("(" + ddd + ")", first + "-" + last) == WhatsAppPrefix + ddd + first + last
  {
    StripAround('(', ddd, ')');
    StripConcat(first + "-", last);
    StripConcat(first, "-");
    StripOne('-');
    StripIdempotent(first);
    StripIdempotent(last);
  }

  /** `whatsapp_ddd.replace(...)` on a missing field throws a TypeError. */
  datatype Crash = TypeError

  /** `finalUrl`: the submitted link for URL buttons, the derived wa.me link
      for WhatsApp buttons. */
  function FinalUrl(r: Request): (u: Result<Option<string>, Crash>)
    ensures r.linkType != Some("whatsapp") ==> u == Ok(r.linkUrl)
    ensures r.linkType == Some("whatsapp") ==>
              (u.Err? <==> r.whatsappDdd.None? || r.whatsappNumber.None?)
    ensures r.linkType == Some("whatsapp") && u.Ok? ==>
              u.value.Some? && u.value.value == WhatsAppLink(r.whatsappDdd.value, r.whatsappNumber.value)
  {
    if r.linkType == Some("whatsapp") then
      if r.whatsappDdd.None? || r.whatsappNumber.None? then Err(TypeError)
      else Ok(Some(WhatsAppLink(r.whatsappDdd.value, r.whatsappNumber.value)))
    else Ok(r.linkUrl)
  }

  /** An accepted create request never reaches the throwing path. */
  lemma CreateNeverThrows(r: Request)
    requires CreateErrors(r) == []
    ensures FinalUrl(r).Ok?
  {
    CreateAcceptedExactly(r);
  }

  /** The record a valid create request stores under id `id`. */
  function CreatedButton(id: int, caller: int, r: Request, now: int): (b: Button)
    requires CreateErrors(r) == []
    ensures b.id == id && b.userId == caller && b.createdAt == now && b.updatedAt == now
    ensures b.name == Trim(r.name.value) && Some(b.linkType) == r.linkType && Some(b.position) == r.position
    ensures b.linkType == "url" ==> b.linkUrl == r.linkUrl
    ensures b.linkType == "whatsapp" ==>
              b.linkUrl == Some(WhatsAppLink(r.whatsappDdd.value, r.whatsappNumber.value))
    ensures b.whatsappDdd == OrNull(r.whatsappDdd) && b.whatsappNumber == OrNull(r.whatsappNumber)
  {
    CreateNeverThrows(r);
    CreateAcceptedExactly(r);
    ButtonRecord(id, ButtonInsert(caller, TrimmedName(r.name).value, r.linkType.value, FinalUrl(r).value,
                                  OrNull(r.whatsappDdd), OrNull(r.whatsappNumber), r.position), now)
  }

  /** The record a valid update request leaves in place of `b`. */
  function UpdatedButton(b: Button, r: Request, now: int): (u: Button)
    requires UpdateErrors(r) == [] && FinalUrl(r).Ok?
    ensures u.id == b.id && u.userId == b.userId && u.createdAt == b.createdAt && u.updatedAt == now
    ensures u.name == Trim(r.name.value) && Some(u.linkType) == r.linkType && Some(u.position) == r.position
    ensures u.linkType != "whatsapp" ==> u.linkUrl == r.linkUrl
    ensures u.linkType == "whatsapp" ==>
              u.linkUrl == Some(WhatsAppLink(r.whatsappDdd.value, r.whatsappNumber.value))
    ensures u.whatsappDdd == OrNull(r.whatsappDdd) && u.whatsappNumber == OrNull(r.whatsappNumber)
  {
    UpdateAcceptedExactly(r, r.linkUrl, r.whatsappDdd, r.whatsappNumber);
    MergeButton(b, ButtonUpdate(TrimmedName(r.name).value, r.linkType.value, FinalUrl(r).value,
                                OrNull(r.whatsappDdd), OrNull(r.whatsappNumber), r.position.value), now)
  }

  /** `GET /`: the caller's buttons, newest first. */
  function List(db: Database, caller: int): (resp: Response)
    reads db
    ensures resp.status == 200 && resp.contentType == JsonType && resp.payload.ButtonList?
    ensures forall k :: 0 <= k < |resp.payload.buttons| ==>
              resp.payload.buttons[k] in db.buttons && resp.payload.buttons[k].userId == caller
    ensures forall k :: 0 <= k < |db.buttons| && db.buttons[k].userId == caller ==>
              db.buttons[k] in resp.payload.buttons
    ensures multiset(resp.payload.buttons) == multiset(OwnedBy(db.buttons, caller))
    ensures DescendingBy(resp.payload.buttons, CreatedAt)
  {
    Json(200, ButtonList(db.AllButtons(caller, true)))
  }

  /** `GET /:id`: the caller's button, or not-found for a missing id and
      for someone else's button alike. */
  function Show(db: Database, caller: int, id: int): (resp: Response)
    reads db
    ensures db.GetButton(id, Some(caller)).None? ==> resp == NotFound()
    ensures db.GetButton(id, Some(caller)).Some? ==>
              resp.status == 200 && resp.contentType == JsonType &&
              resp.payload.ButtonBody? && resp.payload.button.Some? &&
              resp.payload.button.value in db.buttons &&
              resp.payload.button.value.id == id && resp.payload.button.value.userId == caller
  {
    var found := db.GetButton(id, Some(caller));
    if found.None? then NotFound() else Json(200, ButtonBody(found))
  }

  /** `POST /`: validate, derive the link, insert, read the new button back. */
  method Create(db: Database, caller: int, r: Request, now: int) returns (resp: Response)
    modifies db
    ensures db.users == old(db.users)
    ensures CreateErrors(r) != [] ==>
              resp == Json(400, ValidationErrors(Issues(CreateErrors(r)))) && db.buttons == old(db.buttons)
    ensures CreateErrors(r) == [] ==>
              var b := CreatedButton(NextId(ButtonIds(old(db.buttons))), caller, r, now);
              db.buttons == old(db.buttons) + [b] &&
              resp == Json(201, ButtonBody(Some(b))) &&
              db.GetButton(b.id, Some(caller)) == Some(b)
    ensures old(db.Valid()) ==> db.Valid()
  {
    var errors := CreateErrors(r);
    if errors != [] {
      return Json(400, ValidationErrors(Issues(errors)));
    }
    CreateNeverThrows(r);
    var finalUrl := FinalUrl(r).value;
    ghost var before := db.buttons;
    var lastId := db.CreateButton(
      ButtonInsert(caller, TrimmedName(r.name).value, r.linkType.value, finalUrl,
                   OrNull(r.whatsappDdd), OrNull(r.whatsappNumber), r.position), now);
    ghost var b := CreatedButton(lastId, caller, r, now);
    assert db.buttons == before + [b];
    AppendedIsFound(before, b);
    var button := db.GetButton(lastId, None);
    resp := Json(201, ButtonBody(button));
  }

  /** `PUT /:id`: validate, check ownership, derive the link, update, read
      the button back. */
  method Update(db: Database, caller: int, id: int, r: Request, now: int) returns (resp: Response)
    modifies db
    ensures db.users == old(db.users)
    ensures UpdateErrors(r) != [] ==>
              resp == Json(400, ValidationErrors(Issues(UpdateErrors(r)))) && db.buttons == old(db.buttons)
    ensures UpdateErrors(r) == [] && old(db.GetButton(id, Some(caller))).None? ==>
              resp == NotFound() && db.buttons == old(db.buttons)
    ensures UpdateErrors(r) == [] && old(db.GetButton(id, Some(caller))).Some? && FinalUrl(r).Err? ==>
              resp == Json(500, ErrorBody("Erro ao atualizar botão")) && db.buttons == old(db.buttons)
    ensures UpdateErrors(r) == [] && old(db.GetButton(id, Some(caller))).Some? && FinalUrl(r).Ok? ==>
              var u := UpdatedButton(old(db.GetButton(id, Some(caller))).value, r, now);
              resp == Json(200, ButtonBody(Some(u))) &&
              var i := IndexOfId(old(db.buttons), id);
              0 <= i && old(db.buttons)[i] == old(db.GetButton(id, Some(caller))).value &&
              db.buttons == old(db.buttons)[i := u]
    ensures old(db.Valid()) ==> db.Valid()
  {
    var errors := UpdateErrors(r);
    if errors != [] {
      return Json(400, ValidationErrors(Issues(errors)));
    }
    var existing := db.GetButton(id, Some(caller));
    if existing.None? {
      return NotFound();
    }
    var finalUrl := FinalUrl(r);
    if finalUrl.Err? {
      return Json(500, ErrorBody("Erro ao atualizar botão"));
    }
    ghost var before := db.buttons;
    FirstOwnedIsTarget(before, id, caller);
    UpdateAcceptedExactly(r, r.linkUrl, r.whatsappDdd, r.whatsappNumber);
    var changes := db.UpdateButton(id, caller,
      ButtonUpdate(TrimmedName(r.name).value, r.linkType.value, finalUrl.value,
                   OrNull(r.whatsappDdd), OrNull(r.whatsappNumber), r.position.value), now);
    ghost var u := UpdatedButton(existing.value, r, now);
    assert db.buttons == before[IndexOfId(before, id) := u];
    OverwriteKeepsIndex(before, u);
    var button := db.GetButton(id, None);
    resp := Json(200, ButtonBody(button));
  }

  /** `DELETE /:id`: not-found exactly when the store removed nothing. */
  method Delete(db: Database, caller: int, id: int) returns (resp: Response)
    modifies db
    ensures db.users == old(db.users)
    ensures db.buttons == WithoutButton(old(db.buttons), id, caller)
    ensures resp == NotFound() <==> |db.buttons| == |old(db.buttons)|
    ensures resp != NotFound() ==> resp == Json(200, MessageBody("Botão deletado com sucesso"))
    ensures resp == NotFound() <==> forall k :: 0 <= k < |old(db.buttons)| ==> !Targets(old(db.buttons)[k], id, caller)
    ensures resp == NotFound() ==> db.buttons == old(db.buttons)
    ensures old(db.Valid()) ==> db.Valid()
  {
    var changes := db.DeleteButton(id, caller);
    if changes == 0 {
      return NotFound();
    }
    resp := Json(200, MessageBody("Botão deletado com sucesso"));
  }
}
