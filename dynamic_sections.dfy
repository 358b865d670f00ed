/** The page sections of components/common/DynamicSections.tsx: which renderer a
    section's `__component` tag selects, and the lookups with defaults the
    renderers apply to the section's data (background colour, text alignment,
    image alt text and position, link target, gallery columns and layout, and
    the WhatsApp link). Section data is untyped JSON from the content service. */
module DynamicSections {
  import opened Common
  import opened Json
  import Strapi

  /** The renderer a section is handed to; `Unrecognised` renders nothing. */
  datatype Renderer =
    | SectionTexte | SectionImage | SectionGalerie | SectionContact | SectionFaq | SectionAvantages
    | Unrecognised

  /** The six tags the `switch` recognises. */
  const Tags: seq<string> := [
    "sections.section-texte", "sections.section-image", "sections.section-galerie",
    "sections.section-contact", "sections.section-faq", "sections.section-avantages"]

  /** The renderer of each tag, at the tag's position in `Tags`. */
  const Renderers: seq<Renderer> :=
    [SectionTexte, SectionImage, SectionGalerie, SectionContact, SectionFaq, SectionAvantages]

  /** The `switch (section.__component)` of the section list. */
  function Dispatch(section: Json): (r: Renderer)
    ensures r != Unrecognised <==>
              (Get(section, "__component").Some? && Get(section, "__component").value.JStr?
               && Get(section, "__component").value.s in Tags)
    ensures r == SectionTexte <==> Get(section, "__component") == Some(JStr("sections.section-texte"))
    ensures r == SectionGalerie <==> Get(section, "__component") == Some(JStr("sections.section-galerie"))
    ensures forall i :: 0 <= i < |Tags| ==>
              (r == Renderers[i] <==> Get(section, "__component") == Some(JStr(Tags[i])))
  {
    match Get(section, "__component")
    case Some(JStr(tag)) =>
      if tag == "sections.section-texte" then SectionTexte
      else if tag == "sections.section-image" then SectionImage
      else if tag == "sections.section-galerie" then SectionGalerie
      else if tag == "sections.section-contact" then SectionContact
      else if tag == "sections.section-faq" then SectionFaq
      else if tag == "sections.section-avantages" then SectionAvantages
      else Unrecognised
    case _ => Unrecognised
  }

  /** Every recognised tag starts with "sections." (and so has 'e' second). */
  lemma TagsAreSectionTags()
    ensures forall t :: t in Tags ==> StartsWith(t, "sections.") && t[1] == 'e'
  {
    forall t | t in Tags ensures StartsWith(t, "sections.") && t[1] == 'e' {
      assert t[..9] == "sections.";
    }
  }

  /** A recognised tag always starts with "sections."; the "shared.*" tags the
      content types declare are therefore never rendered. */
  lemma RecognisedTagsAreSectionTags(section: Json)
    ensures Dispatch(section) != Unrecognised ==>
              StartsWith(Get(section, "__component").value.s, "sections.")
    ensures Get(section, "__component").Some? && Get(section, "__component").value.JStr?
            && StartsWith(Get(section, "__component").value.s, "shared.")
            ==> Dispatch(section) == Unrecognised
  {
    TagsAreSectionTags();
    var c := Get(section, "__component");
    if c.Some? && c.value.JStr? && StartsWith(c.value.s, "shared.") {
      assert c.value.s[1] == c.value.s[..7][1] == 'h';
    }
  }

  /** The whole list: nothing at all without sections, else one renderer per
      section in order. */
  function RenderSections(sections: Option<seq<Json>>): (r: Option<seq<Renderer>>)
    ensures r.None? <==> sections.None? || sections.value == []
    ensures r.Some? ==> |r.value| == |sections.value|
    ensures r.Some? ==> forall i :: 0 <= i < |r.value| ==> r.value[i] == Dispatch(sections.value[i])
  {
    if sections.None? || sections.value == [] then None
    else Some(seq(|sections.value|, i requires 0 <= i < |sections.value| => Dispatch(sections.value[i])))
  }

  /** Sections render independently of each other: the renderers of a joined
      list are those of its two halves, in order. */
  lemma RenderSectionsConcat(a: seq<Json>, b: seq<Json>)
    requires a != [] && b != []
    ensures RenderSections(Some(a + b)).value == RenderSections(Some(a)).value + RenderSections(Some(b)).value
  {
    var ra := RenderSections(Some(a)).value;
    var rb := RenderSections(Some(b)).value;
    var r := RenderSections(Some(a + b)).value;
    forall i | 0 <= i < |r| ensures r[i] == (ra + rb)[i] {
      if i < |a| {
        assert (a + b)[i] == a[i];
      } else {
        assert (a + b)[i] == b[i - |a|];
      }
    }
  }

  // ---------------------------------------------------------------------------
  // SectionTexte

  const Backgrounds: set<string> :=
    {"bg-gray-100", "bg-blue-50", "bg-green-50", "bg-yellow-50", "bg-purple-50", "bg-white"}

  /** `backgroundColors[couleur_fond] || "bg-gray-100"` */
  function BackgroundClass(couleurFond: Option<Json>): (r: string)
    ensures r in Backgrounds
    ensures couleurFond.Some? && couleurFond.value.JStr? && couleurFond.value.s in Backgrounds
            ==> r == couleurFond.value.s
    ensures !(couleurFond.Some? && couleurFond.value.JStr? && couleurFond.value.s in Backgrounds)
            ==> r == "bg-gray-100"
  {
    if couleurFond.Some? && couleurFond.value.JStr? && couleurFond.value.s in Backgrounds
    then couleurFond.value.s else "bg-gray-100"
  }

  /** Text is centred exactly when `centrer_texte` is truthy. */
  function TextAlignClass(centrerTexte: Option<Json>): (r: string)
    ensures r == "text-center" <==> Truthy(centrerTexte)
    ensures r == "text-center" || r == "text-left"
  {
    if Truthy(centrerTexte) then "text-center" else "text-left"
  }

  // ---------------------------------------------------------------------------
  // SectionImage

  /** `a || b` on possibly undefined JSON values. */
  function Or(a: Option<Json>, b: Json): (r: Json)
    ensures Truthy(a) ==> r == a.value
    ensures !Truthy(a) ==> r == b
  {
    if Truthy(a) then a.value else b
  }

  /** `data.image?.url`, when it is a string. */
  function ImageUrlField(data: Json): Option<string> {
    var image := Get(data, "image");
    if image.Some? then
      match Get(image.value, "url")
      case Some(JStr(s)) => Some(s)
      case _ => None
    else None
  }

  /** The picture's URL, resolved against the content service's base URL. */
  function SectionImageUrl(base: string, data: Json): string {
    Strapi.MediaUrl(base, ImageUrlField(data))
  }

  /** `data.image?.alternativeText || data.titre || "Image"` */
  function ImageAlt(data: Json): (r: Json)
    ensures Truthy(Some(r))
    ensures var image := Get(data, "image");
            var alt := if image.Some? then Get(image.value, "alternativeText") else None;
            (Truthy(alt) ==> r == alt.value)
            && (!Truthy(alt) && Truthy(Get(data, "titre")) ==> r == Get(data, "titre").value)
            && (!Truthy(alt) && !Truthy(Get(data, "titre")) ==> r == JStr("Image"))
  {
    var image := Get(data, "image");
    var alt := if image.Some? then Get(image.value, "alternativeText") else None;
    Or(alt, Or(Get(data, "titre"), JStr("Image")))
  }

  const PositionGauche := "md:float-left md:mr-6 mb-4"
  const PositionDroite := "md:float-right md:ml-6 mb-4"
  const PositionCentre := "mx-auto mb-6"
  const PositionPleineLargeur := "w-full mb-6"

  /** `positionClasses[position_image] || positionClasses.gauche` */
  function PositionClass(position: Option<Json>): (r: string)
    ensures position == Some(JStr("droite")) ==> r == PositionDroite
    ensures position == Some(JStr("centre")) ==> r == PositionCentre
    ensures position == Some(JStr("pleine_largeur")) ==> r == PositionPleineLargeur
    ensures position !in {Some(JStr("droite")), Some(JStr("centre")), Some(JStr("pleine_largeur"))}
            ==> r == PositionGauche
    ensures r in {PositionGauche, PositionDroite, PositionCentre, PositionPleineLargeur}
  {
    match position
    case Some(JStr("droite")) => PositionDroite
    case Some(JStr("centre")) => PositionCentre
    case Some(JStr("pleine_largeur")) => PositionPleineLargeur
    case _ => PositionGauche
  }

  /** The `target` and `rel` of the section link. */
  datatype LinkAttributes = LinkAttributes(target: Option<string>, rel: Option<string>)

  /** An absolute link opens in a new tab without opener or referrer; any other
      link opens in place. */
  function LinkAttributesOf(lienUrl: string): (r: LinkAttributes)
    ensures StartsWith(lienUrl, "http") ==> r == LinkAttributes(Some("_blank"), Some("noopener noreferrer"))
    ensures !StartsWith(lienUrl, "http") ==> r == LinkAttributes(None, None)
    ensures r.target == Some("_blank") <==> r.rel == Some("noopener noreferrer")
  {
    if StartsWith(lienUrl, "http") then LinkAttributes(Some("_blank"), Some("noopener noreferrer"))
    else LinkAttributes(None, None)
  }

  // ---------------------------------------------------------------------------
  // SectionGalerie

  const Cols2 := "grid-cols-1 md:grid-cols-2"
  const Cols3 := "grid-cols-1 md:grid-cols-2 lg:grid-cols-3"
  const Cols4 := "grid-cols-1 md:grid-cols-2 lg:grid-cols-4"

  /** `colsClasses[colonnes] || colsClasses[3]`. Object keys are strings, so
      the number 2 and the string "2" find the same entry. */
  function ColumnsClass(colonnes: Option<Json>): (r: string)
    ensures colonnes in {Some(JStr("2")), Some(JNum(2.0))} ==> r == Cols2
    ensures colonnes in {Some(JStr("4")), Some(JNum(4.0))} ==> r == Cols4
    ensures colonnes !in {Some(JStr("2")), Some(JNum(2.0)), Some(JStr("4")), Some(JNum(4.0))} ==> r == Cols3
    ensures r in {Cols2, Cols3, Cols4}
  {
    match colonnes
    case Some(JStr("2")) => Cols2
    case Some(JNum(n)) =>
      if n == 2.0 then Cols2 else if n == 4.0 then Cols4 else Cols3
    case Some(JStr("4")) => Cols4
    case _ => Cols3
  }

  datatype Layout = Grille | Carrousel

  /** `(data.affichage || "grille") === "carrousel"` */
  function LayoutOf(affichage: Option<Json>): (r: Layout)
    ensures r == Carrousel <==> affichage == Some(JStr("carrousel"))
  {
    if Or(affichage, JStr("grille")) == JStr("carrousel") then Carrousel else Grille
  }

  /** `img.alternativeText || \`Image ${idx + 1}\`` */
  function GalleryAlt(img: Json, idx: nat): (r: Json)
    ensures Truthy(Get(img, "alternativeText")) ==> r == Get(img, "alternativeText").value
    ensures !Truthy(Get(img, "alternativeText")) ==> r == JStr("Image " + NatToString(idx + 1))
    ensures Truthy(Some(r))
    ensures !Truthy(Get(img, "alternativeText")) ==>
              StartsWith(r.s, "Image ") && |r.s| > 6 && forall i :: 6 <= i < |r.s| ==> IsDigit(r.s[i])
  {
    StartsWithConcat("Image ", NatToString(idx + 1));
    Or(Get(img, "alternativeText"), JStr("Image " + NatToString(idx + 1)))
  }

  // ---------------------------------------------------------------------------
  // SectionContact

  /** The WhatsApp link: the number with every character but the digits removed. */
  function WhatsAppHref(whatsapp: string): (r: string)
    ensures StartsWith(r, "https://wa.me/")
    ensures forall i :: 14 <= i < |r| ==> IsDigit(r[i])
    ensures |r| <= 14 + |whatsapp|
  {
    StartsWithConcat("https://wa.me/", DigitsOnly(whatsapp));
    "https://wa.me/" + DigitsOnly(whatsapp)
  }

  /** Formatting characters do not change the link: separators around the digit
      groups are dropped. */
  lemma WhatsAppIgnoresSeparators(a: string, sep: string, b: string)
    requires forall i :: 0 <= i < |sep| ==> !IsDigit(sep[i])
    ensures WhatsAppHref(a + sep + b) == WhatsAppHref(a + b)
  {
    DigitsOnlyConcat(a + sep, b);
    DigitsOnlyConcat(a, sep);
    DigitsOnlyConcat(a, b);
    NoDigits(sep);
  }

  lemma {:induction false} NoDigits(s: string)
    requires forall i :: 0 <= i < |s| ==> !IsDigit(s[i])
    ensures DigitsOnly(s) == []
  {
    if s != [] {
      NoDigits(s[1..]);
    }
  }
}
