/** The widget script of routes/script.js: the corner a stored position maps
    to, the CSS offsets it becomes, and the JavaScript text served for a
    button, which styles and mounts a floating link on the embedding page.
 */
module Script {
  import opened Values
  import opened Text
  import opened Store
  import opened Http

  /** One entry of `positionMap`: the CSS offsets it sets; a key the
      object does not have is `None`. */
  datatype Offsets = Offsets(top: Option<string>, bottom: Option<string>, left: Option<string>, right: Option<string>)

  const Gap: string := "20px"

  /** `positionMap[position]`: the four corners the widget can sit in. */
  function PositionMap(position: string): (r: Option<Offsets>)
    ensures r.Some? <==> position in ["bottom-right", "bottom-left", "top-right", "top-left"]
  {
    if position == "bottom-right" then Some(Offsets(None, Some(Gap), None, Some(Gap)))
    else if position == "bottom-left" then Some(Offsets(None, Some(Gap), Some(Gap), None))
    else if position == "top-right" then Some(Offsets(Some(Gap), None, None, Some(Gap)))
    else if position == "top-left" then Some(Offsets(Some(Gap), None, Some(Gap), None))
    else None
  }

  /** `positionMap[button.position] || positionMap['bottom-right']`. */
  function Corner(position: string): (o: Offsets)
    ensures PositionMap(position).Some? ==> o == PositionMap(position).value
    ensures PositionMap(position).None? ==> o == PositionMap(DefaultPosition).value
  {
    var entry := PositionMap(position);
    if entry.Some? then entry.value else PositionMap(DefaultPosition).value
  }

  /** Whatever the stored position, the widget gets exactly one vertical
      and one horizontal offset, both 20px; the other two are unset. */
  lemma CornerIsOneOfFour(position: string)
    ensures var o := Corner(position);
      (o.top.Some? <==> o.bottom.None?) && (o.left.Some? <==> o.right.None?) &&
      (o.top.Some? ==> o.top.value == Gap) && (o.bottom.Some? ==> o.bottom.value == Gap) &&
      (o.left.Some? ==> o.left.value == Gap) && (o.right.Some? ==> o.right.value == Gap)
  {
  }

  /** `${property}: ${value};` when the offset is set, nothing otherwise. */
  function Fragment(property: string, value: Option<string>): (r: string)
    ensures !Truthy(value) ==> r == ""
    ensures Truthy(value) ==> r == property + ": " + value.value + ";"
  {
    if Truthy(value) then property + ": " + value.value + ";" else ""
  }

  /** `${topStyle}${bottomStyle}${leftStyle}${rightStyle}`. */
  function PositionStyle(o: Offsets): string {
    Fragment("top", o.top) + Fragment("bottom", o.bottom) + Fragment("left", o.left) + Fragment("right", o.right)
  }

  /** A set offset renders as `<property>: 20px;`. */
  lemma GapFragment(property: string)
    ensures Fragment(property, Some(Gap)) == property + ": 20px;"
  {
    assert ": " + Gap + ";" == ": 20px;";
  }

  /** The offsets each recognised position produces, vertical first. */
  lemma BottomRightStyle()
    ensures PositionStyle(Offsets(None, Some(Gap), None, Some(Gap))) == "bottom: 20px;right: 20px;"
  {
    GapFragment("bottom");
    GapFragment("right");
    assert "bottom: 20px;" + "right: 20px;" == "bottom: 20px;right: 20px;";
  }

  lemma BottomLeftStyle()
    ensures PositionStyle(Offsets(None, Some(Gap), Some(Gap), None)) == "bottom: 20px;left: 20px;"
  {
    GapFragment("bottom");
    GapFragment("left");
    assert "bottom: 20px;" + "left: 20px;" == "bottom: 20px;left: 20px;";
  }

  lemma TopRightStyle()
    ensures PositionStyle(Offsets(Some(Gap), None, None, Some(Gap))) == "top: 20px;right: 20px;"
  {
    GapFragment("top");
    GapFragment("right");
    assert "top: 20px;" + "right: 20px;" == "top: 20px;right: 20px;";
  }

  lemma TopLeftStyle()
    ensures PositionStyle(Offsets(Some(Gap), None, Some(Gap), None)) == "top: 20px;left: 20px;"
  {
    GapFragment("top");
    GapFragment("left");
    assert "top: 20px;" + "left: 20px;" == "top: 20px;left: 20px;";
  }

  /** The style of a stored position: the corner it names, and for any
      other value the bottom-right corner. */
  lemma PositionStyles(position: string)
    ensures position == "bottom-right" || PositionMap(position).None? ==>
              PositionStyle(Corner(position)) == "bottom: 20px;right: 20px;"
    ensures position == "bottom-left" ==> PositionStyle(Corner(position)) == "bottom: 20px;left: 20px;"
    ensures position == "top-right" ==> PositionStyle(Corner(position)) == "top: 20px;right: 20px;"
    ensures position == "top-left" ==> PositionStyle(Corner(position)) == "top: 20px;left: 20px;"
  {
    BottomRightStyle();
    BottomLeftStyle();
    TopRightStyle();
    TopLeftStyle();
  }

  /** The CSS class of the button with id `id`. */
  function ClassName(id: int): (r: string)
    ensures IsPrefix("chatbutton-", r)
  {
    "chatbutton-" + IntToString(id)
  }

  /** The name of its pulse animation. */
  function PulseName(id: int): (r: string)
    ensures IsPrefix("chatbutton-pulse-", r)
  {
    "chatbutton-pulse-" + IntToString(id)
  }

  /** After their fixed prefixes, the class and the animation name read
      back as the button's id. */
  lemma NamesCarryTheId(id: nat)
    ensures var tail := ClassName(id)[|"chatbutton-"|..]; AllDigits(tail) && DigitsValue(tail) == id
    ensures var tail := PulseName(id)[|"chatbutton-pulse-"|..]; AllDigits(tail) && DigitsValue(tail) == id
  {
    assert ClassName(id)[|"chatbutton-"|..] == NatToString(id);
    assert PulseName(id)[|"chatbutton-pulse-"|..] == NatToString(id);
    NatToStringRoundTrip(id);
  }

  /** Two buttons never share a class or an animation name, so two widgets
      on one page do not restyle each other. */
  lemma NamesAreDistinct(m: int, n: int)
    requires m != n
    ensures ClassName(m) != ClassName(n)
    ensures PulseName(m) != PulseName(n)
  {
    if IntToString(m) == IntToString(n) {
      IntToStringInjective(m, n);
    }
    assert ClassName(m)[|"chatbutton-"|..] == IntToString(m);
    assert ClassName(n)[|"chatbutton-"|..] == IntToString(n);
    assert PulseName(m)[|"chatbutton-pulse-"|..] == IntToString(m);
    assert PulseName(n)[|"chatbutton-pulse-"|..] == IntToString(n);
  }

  const BoxRule: string := "width:60px;height:60px;background:linear-gradient(135deg,#25D366 0%,#128C7E 100%);border-radius:50%;box-shadow:0 4px 12px rgba(37,211,102,0.4);cursor:pointer;z-index:9999;display:flex;align-items:center;justify-content:center;transition:all 0.3s ease;"

  /** `.chatbutton-<id>{position:fixed;<offsets>`: the rule's selector
      and the offsets of its corner. */
  function RuleHead(id: int, o: Offsets): string {
    "." + ClassName(id) + "{position:fixed;" + PositionStyle(o)
  }

  function Animation(id: int): string {
    "animation:" + PulseName(id) + " 2s infinite"
  }

  function ButtonRule(id: int, o: Offsets): string {
    RuleHead(id, o) + BoxRule + Animation(id) + "}"
  }

  function HoverSelector(id: int): string {
    "." + ClassName(id) + ":hover{"
  }

  function HoverRule(id: int): string {
    HoverSelector(id) + "transform:scale(1.1);box-shadow:0 6px 20px rgba(37,211,102,0.6)}"
  }

  function IconRule(id: int): string {
    "." + ClassName(id) + " svg{width:32px;height:32px;fill:white}"
  }

  function KeyframesHead(id: int): string {
    "@keyframes " + PulseName(id) + "{"
  }

  function Keyframes(id: int): string {
    KeyframesHead(id) + "0%,100%{transform:scale(1)}50%{transform:scale(1.05)}}"
  }

  /** The text assigned to `style.textContent`. */
  function StyleText(id: int, o: Offsets): string {
    ButtonRule(id, o) + HoverRule(id) + IconRule(id) + Keyframes(id)
  }

  /** `${button.link_url}`: a missing link renders as `undefined`. */
  function LinkText(url: Option<string>): (r: string)
    ensures url.Some? ==> r == url.value
    ensures url.None? ==> r == "undefined"
  {
    if url.Some? then url.value else "undefined"
  }

  function LinkDeclaration(url: Option<string>): string {
    "var buttonLink = '" + LinkText(url) + "';"
  }

  function Declarations(id: int, url: Option<string>): string {
    "(function() {\n  var buttonId = '" + IntToString(id) + "';\n  " + LinkDeclaration(url) + "\n  \n"
  }

  const StyleOpen: string := "  // Criar estilos\n  var style = document.createElement('style');\n  style.textContent = '"
  const StyleClose: string := "';\n  document.head.appendChild(style);\n  \n"

  function StyleStatements(style: string): string {
    StyleOpen + style + StyleClose
  }

  const AnchorOpen: string := "  // Criar botão\n  var btn = document.createElement('a');\n"
  const HrefLine: string := "  btn.href = buttonLink;\n"
  const AnchorAttributes: string := "  btn.target = '_blank';\n  btn.rel = 'noopener noreferrer';\n  "

  function ClassNameStatement(id: int): string {
    "btn.className = '" + ClassName(id) + "';"
  }

  const Icon: string := "<svg viewBox=\"0 0 24 24\" xmlns=\"http://www.w3.org/2000/svg\"><path d=\"M17.472 14.382c-.297-.149-1.758-.867-2.03-.967-.273-.099-.471-.148-.67.15-.197.297-.767.966-.94 1.164-.173.199-.347.223-.644.075-.297-.15-1.255-.463-2.39-1.475-.883-.788-1.48-1.761-1.653-2.059-.173-.297-.018-.458.13-.606.134-.133.298-.347.446-.52.149-.174.198-.298.298-.497.099-.198.05-.371-.025-.52-.075-.149-.669-1.612-.916-2.207-.242-.579-.487-.5-.669-.51-.173-.008-.371-.01-.57-.01-.198 0-.52.074-.792.372-.272.297-1.04 1.016-1.04 2.479 0 1.462 1.065 2.875 1.213 3.074.149.198 2.096 3.2 5.077 4.487.709.306 1.262.489 1.694.625.712.227 1.36.195 1.871.118.571-.085 1.758-.719 2.006-1.413.248-.694.248-1.289.173-1.413-.074-.124-.272-.198-.57-.347m-5.421 7.403h-.004a9.87 9.87 0 01-5.031-1.378l-.361-.214-3.741.982.998-3.648-.235-.374a9.86 9.86 0 01-1.51-5.26c.001-5.45 4.436-9.884 9.888-9.884 2.64 0 5.122 1.03 6.988 2.898a9.825 9.825 0 012.893 6.994c-.003 5.45-4.437 9.884-9.885 9.884m8.413-18.297A11.815 11.815 0 0012.05 0C5.495 0 .16 5.335.157 11.892c0 2.096.547 4.142 1.588 5.945L.057 24l6.305-1.654a11.882 11.882 0 005.683 1.448h.005c6.554 0 11.89-5.335 11.893-11.893a11.821 11.821 0 00-3.48-8.413Z\" fill=\"white\"/></svg>"

  const IconStatement: string := "\n  btn.setAttribute('data-chatbutton-id', buttonId);\n  btn.innerHTML = '" + Icon + "';\n  \n"

  function AnchorRest(id: int): string {
    AnchorAttributes + ClassNameStatement(id) + IconStatement
  }

  function AnchorStatements(id: int): string {
    AnchorOpen + HrefLine + AnchorRest(id)
  }

  const Mount: string := "  // Adicionar ao body\n  if(document.body){document.body.appendChild(btn);}else{window.addEventListener('DOMContentLoaded',function(){document.body.appendChild(btn);});}\n})();"

  /** The template literal of routes/script.js for one stored button. */
  function ScriptText(b: Button): string {
    Declarations(b.id, b.linkUrl) + StyleStatements(StyleText(b.id, Corner(b.position)))
    + AnchorStatements(b.id) + Mount
  }

  /** The style text opens with the button's class, fixed positioning and
      its corner's offsets. */
  lemma StyleOpensWithRule(id: int, o: Offsets)
    ensures IsPrefix(RuleHead(id, o), StyleText(id, o))
  {
    var rule := ButtonRule(id, o);
    PrefixOfFour(RuleHead(id, o), BoxRule, Animation(id), "}");
    PrefixOfFour(rule, HoverRule(id), IconRule(id), Keyframes(id));
    PrefixTransitive(RuleHead(id, o), rule, StyleText(id, o));
  }

  /** The style text runs the button's own pulse animation, styles the
      hover state of the same class and defines that animation's
      keyframes. */
  lemma StyleNamesTheButton(id: int, o: Offsets)
    ensures IsPrefix(RuleHead(id, o), StyleText(id, o))
    ensures IsInfix(Animation(id), StyleText(id, o))
    ensures IsInfix(HoverSelector(id), StyleText(id, o))
    ensures IsInfix(KeyframesHead(id), StyleText(id, o))
  {
    StyleOpensWithRule(id, o);
    var style := StyleText(id, o);
    var rule, hover, icon, frames := ButtonRule(id, o), HoverRule(id), IconRule(id), Keyframes(id);
    InfixOfFour(rule, hover, icon, frames);
    InfixOfFour(RuleHead(id, o), BoxRule, Animation(id), "}");
    InfixTransitive(Animation(id), rule, style);
    InfixOfPrefix(HoverSelector(id), "transform:scale(1.1);box-shadow:0 6px 20px rgba(37,211,102,0.6)}");
    InfixTransitive(HoverSelector(id), hover, style);
    InfixOfPrefix(KeyframesHead(id), "0%,100%{transform:scale(1)}50%{transform:scale(1.05)}}");
    InfixOfSuffix(rule + hover + icon, frames);
    InfixTransitive(KeyframesHead(id), frames, style);
  }

  /** The served script declares the stored link verbatim between single
      quotes, makes it the anchor's `href`, gives the anchor the button's
      class, and carries the style text with the button's names. */
  lemma ScriptEmbedsButton(b: Button)
    ensures IsInfix("var buttonLink = '" + LinkText(b.linkUrl) + "';", ScriptText(b))
    ensures IsInfix(HrefLine, ScriptText(b))
    ensures IsInfix("btn.className = '" + ClassName(b.id) + "';", ScriptText(b))
    ensures IsInfix(StyleText(b.id, Corner(b.position)), ScriptText(b))
    ensures IsInfix("." + ClassName(b.id) + "{position:fixed;" + PositionStyle(Corner(b.position)), ScriptText(b))
    ensures IsInfix("animation:" + PulseName(b.id) + " 2s infinite", ScriptText(b))
    ensures IsInfix("@keyframes " + PulseName(b.id) + "{", ScriptText(b))
  {
    var script := ScriptText(b);
    var style := StyleText(b.id, Corner(b.position));
    var decl, styles, anchor := Declarations(b.id, b.linkUrl), StyleStatements(style), AnchorStatements(b.id);
    InfixOfFour(decl, styles, anchor, Mount);
    InfixOfConcat("(function() {\n  var buttonId = '" + IntToString(b.id) + "';\n  ", LinkDeclaration(b.linkUrl), "\n  \n");
    InfixTransitive(LinkDeclaration(b.linkUrl), decl, script);
    InfixOfConcat(StyleOpen, style, StyleClose);
    InfixTransitive(style, styles, script);
    InfixOfConcat(AnchorOpen, HrefLine, AnchorRest(b.id));
    InfixTransitive(HrefLine, anchor, script);
    InfixOfConcat(AnchorAttributes, ClassNameStatement(b.id), IconStatement);
    InfixOfSuffix(AnchorOpen + HrefLine, AnchorRest(b.id));
    InfixTransitive(ClassNameStatement(b.id), AnchorRest(b.id), anchor);
    InfixTransitive(ClassNameStatement(b.id), anchor, script);
    StyleNamesTheButton(b.id, Corner(b.position));
    var head := RuleHead(b.id, Corner(b.position));
    assert IsInfix(head, style);
    InfixTransitive(head, style, script);
    InfixTransitive(Animation(b.id), style, script);
    InfixTransitive(KeyframesHead(b.id), style, script);
  }

  /** `GET /api/script/:id`: any stored button's script, whoever owns it,
      or the JSON not-found error when no button has that id. */
  function ServeScript(db: Database, id: int): (resp: Response)
    reads db
    ensures db.GetButton(id, None).None? <==> resp == NotFound()
    ensures db.GetButton(id, None).Some? ==>
              resp.status == 200 && resp.contentType == JavaScriptType &&
              resp.payload == ScriptBody(ScriptText(db.GetButton(id, None).value))
  {
    var button := db.GetButton(id, None);
    if button.None? then NotFound()
    else Response(200, JavaScriptType, ScriptBody(ScriptText(button.value)))
  }
}
