/** The artistic style table and the lookup that turns a selected style id into prompt keywords. */
module StyleSelector {
  import opened Options

  datatype ArtisticStyle = ArtisticStyle(id: string, name: string, keywords: string, description: Option<string>)

  /** `ARTISTIC_STYLES`, in table order. */
  const ArtisticStyles: seq<ArtisticStyle> := [
    ArtisticStyle(
      "photorealistic", "Photorealistic",
      "photorealistic, ultra-realistic, highly detailed, 8k resolution, professional photography, sharp focus, perfect lighting, cinematic quality, DSLR camera, depth of field, natural colors, realistic textures, high dynamic range, professional composition, studio quality",
      Some("Ultra-realistic photography style")),
    ArtisticStyle(
      "anime", "Anime",
      "anime style, Japanese animation, vibrant colors, cel-shaded, detailed character design, expressive eyes, dynamic poses, high quality animation, manga-inspired, colorful palette, smooth shading, stylized proportions, anime aesthetic, kawaii style",
      Some("Japanese animation style")),
    ArtisticStyle(
      "oil-painting", "Oil Painting",
      "oil painting, classical art, rich textures, visible brush strokes, impasto technique, traditional fine art, Renaissance style, masterful technique, rich color palette, dramatic lighting, classical composition, art gallery quality, old master painting style",
      Some("Traditional oil painting")),
    ArtisticStyle(
      "watercolor", "Watercolor",
      "watercolor painting, soft flowing colors, translucent washes, artistic brushwork, delicate gradients, paper texture visible, soft edges, ethereal quality, pastel tones, fluid colors, traditional watercolor technique, dreamy aesthetic, gentle blending",
      Some("Soft watercolor aesthetic")),
    ArtisticStyle(
      "digital-art", "Digital Art",
      "digital art, concept art, highly detailed, vibrant colors, professional digital illustration, crisp lines, smooth gradients, modern art style, digital painting, stylized rendering, high quality artwork, contemporary art, polished finish, digital mastery",
      Some("Modern digital illustration")),
    ArtisticStyle(
      "sketch", "Sketch",
      "pencil sketch, detailed line art, black and white, hand-drawn, artistic sketch, fine lines, cross-hatching, shading techniques, graphite drawing, charcoal sketch, detailed illustration, monochrome art, traditional drawing, sketchbook style",
      Some("Hand-drawn sketch style")),
    ArtisticStyle(
      "3d-render", "3D Render",
      "3D render, CGI, octane render, highly detailed, photorealistic 3D, professional 3D modeling, advanced lighting, realistic materials, volumetric lighting, ray-traced shadows, 3D graphics, computer-generated imagery, high poly model, studio render",
      Some("3D computer graphics")),
    ArtisticStyle(
      "cyberpunk", "Cyberpunk",
      "cyberpunk style, neon lights, futuristic cityscape, dark atmosphere, rain-soaked streets, holographic displays, cyberpunk aesthetic, neon signs, dystopian future, high-tech low-life, electric blue and pink neon, night scene, urban decay, tech noir",
      Some("Futuristic neon aesthetic")),
    ArtisticStyle(
      "impressionist", "Impressionist",
      "impressionist painting, soft brush strokes, visible brushwork, light and color emphasis, plein air style, Monet-inspired, dappled sunlight, loose brushstrokes, vibrant color palette, atmospheric perspective, French impressionism, natural light, artistic movement",
      Some("Classical impressionist style")),
    ArtisticStyle(
      "minimalist", "Minimalist",
      "minimalist art, clean composition, simple elegant design, modern minimalism, negative space, geometric shapes, monochrome palette, refined simplicity, contemporary design, essential elements only, clean lines, sophisticated simplicity, less is more",
      Some("Clean and simple design")),
    ArtisticStyle(
      "vintage", "Vintage",
      "vintage style, retro aesthetic, aged appearance, classic design, nostalgic feel, sepia tones, film grain, vintage photography, retro color grading, classic era, timeless quality, antique look, old-fashioned charm, period-appropriate styling",
      Some("Retro vintage aesthetic")),
    ArtisticStyle(
      "fantasy", "Fantasy",
      "fantasy art, magical atmosphere, ethereal beauty, mystical elements, enchanting scene, otherworldly, fantasy illustration, magical realism, enchanted forest, mystical creatures, spellbinding, dreamlike quality, fantasy world, epic fantasy art",
      Some("Fantasy and magical themes"))
  ]

  /** `styles.find((s) => s.id === id)`: the first style with that id, if any. */
  function FindIn(styles: seq<ArtisticStyle>, id: string): (r: Option<ArtisticStyle>)
    ensures r.Some? ==> r.value in styles && r.value.id == id
    ensures r.None? <==> forall i :: 0 <= i < |styles| ==> styles[i].id != id
  {
    if |styles| == 0 then None
    else if styles[0].id == id then Some(styles[0])
    else FindIn(styles[1..], id)
  }

  /** `ARTISTIC_STYLES.find((s) => s.id === styleId)`. */
  function FindStyle(id: string): Option<ArtisticStyle> {
    FindIn(ArtisticStyles, id)
  }

  /** No two styles of the table share an id. */
  lemma StyleIdsDistinct()
    ensures forall i, j :: 0 <= i < j < |ArtisticStyles| ==> ArtisticStyles[i].id != ArtisticStyles[j].id
  {
  }

  /** Every style of the table has non-empty keywords, so `.filter(Boolean)` drops only unknown ids. */
  lemma StyleKeywordsNonEmpty()
    ensures forall i :: 0 <= i < |ArtisticStyles| ==> ArtisticStyles[i].keywords != ""
  {
  }

  /** With distinct ids a lookup finds exactly the one style carrying that id. */
  lemma {:induction false} FindInUnique(styles: seq<ArtisticStyle>, id: string, s: ArtisticStyle)
    requires forall i, j :: 0 <= i < j < |styles| ==> styles[i].id != styles[j].id
    ensures FindIn(styles, id) == Some(s) <==> s in styles && s.id == id
  {
    if |styles| > 0 {
      if styles[0].id != id {
        FindInUnique(styles[1..], id, s);
      }
    }
  }

  /** A selected style id names at most one table entry, and the lookup returns it. */
  lemma FindStyleUnique(id: string, s: ArtisticStyle)
    ensures FindStyle(id) == Some(s) <==> s in ArtisticStyles && s.id == id
  {
    StyleIdsDistinct();
    FindInUnique(ArtisticStyles, id, s);
  }
}
