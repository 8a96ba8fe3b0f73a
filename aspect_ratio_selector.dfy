/** The aspect-ratio choices offered by the form and the icon drawn for each. */
module AspectRatioSelector {
  import opened Options

  datatype RatioChoice = RatioChoice(id: string, caption: string, icon: string)

  /** `ASPECT_RATIOS`, in display order (`caption` is the entry's `label`). */
  const AspectRatios: seq<RatioChoice> := [
    RatioChoice("1:1", "1:1", "square"),
    RatioChoice("16:9", "16:9", "wide"),
    RatioChoice("9:16", "9:16", "tall"),
    RatioChoice("4:3", "4:3", "standard"),
    RatioChoice("3:4", "3:4", "portrait"),
    RatioChoice("21:9", "21:9", "ultrawide")
  ]

  /** The two Tailwind classes that size an icon. */
  datatype IconClasses = IconClasses(widthClass: string, aspectClass: string)

  /** The `switch (type)` of `AspectRatioIcon`: `None` is its `return null`. */
  function IconFor(iconType: string): Option<IconClasses> {
    match iconType
    case "square" => Some(IconClasses("w-4", "aspect-square"))
    case "wide" => Some(IconClasses("w-5", "aspect-[16/9]"))
    case "tall" => Some(IconClasses("w-2.5", "aspect-[9/16]"))
    case "standard" => Some(IconClasses("w-4", "aspect-[4/3]"))
    case "portrait" => Some(IconClasses("w-3", "aspect-[3/4]"))
    case "ultrawide" => Some(IconClasses("w-5", "aspect-[21/9]"))
    case _ => None
  }

  /** The icon types `AspectRatioIcon` draws. */
  const IconTypes: set<string> := {"square", "wide", "tall", "standard", "portrait", "ultrawide"}

  /** `borderColor` of `AspectRatioIcon`. */
  function BorderClass(isSelected: bool): string {
    if isSelected then "border-primary" else "border-muted-foreground"
  }

  /**
    The `className` of the element `AspectRatioIcon` renders, or `None` when it renders
    nothing: present exactly for the six icon types, and then made of the width class,
    the aspect class and the selection-dependent border class.
  */
  function IconClassName(iconType: string, isSelected: bool): (r: Option<string>)
    ensures r.Some? <==> iconType in IconTypes
    ensures r.Some? ==>
              var c := IconFor(iconType).value;
              r.value == c.widthClass + " " + c.aspectClass + " " + BorderClass(isSelected) + " border bg-transparent"
  {
    match IconFor(iconType)
    case None => None
    case Some(c) => Some(c.widthClass + " " + c.aspectClass + " " + BorderClass(isSelected) + " border bg-transparent")
  }

  /** `IconFor` handles exactly the six icon types. */
  lemma IconForDomain(iconType: string)
    ensures IconFor(iconType).Some? <==> iconType in IconTypes
  {
  }

  /** The six icon types get their fixed width and aspect classes. */
  lemma KnownIconClasses()
    ensures IconFor("square") == Some(IconClasses("w-4", "aspect-square"))
    ensures IconFor("wide") == Some(IconClasses("w-5", "aspect-[16/9]"))
    ensures IconFor("tall") == Some(IconClasses("w-2.5", "aspect-[9/16]"))
    ensures IconFor("standard") == Some(IconClasses("w-4", "aspect-[4/3]"))
    ensures IconFor("portrait") == Some(IconClasses("w-3", "aspect-[3/4]"))
    ensures IconFor("ultrawide") == Some(IconClasses("w-5", "aspect-[21/9]"))
  {
  }

  /** Each choice of the table has its own id and an icon type the icon draws. */
  lemma AspectRatiosWellFormed()
    ensures forall i, j :: 0 <= i < j < |AspectRatios| ==> AspectRatios[i].id != AspectRatios[j].id
    ensures forall i :: 0 <= i < |AspectRatios| ==> IconFor(AspectRatios[i].icon).Some?
  {
  }
}
