/** The style resolver: the colours of the status bar and its text for each
    interaction mode, and the other fixed colours of a frame. */
module Style {

  /** An SDL colour. `Color::RGB` is opaque, that is alpha 255. */
  datatype Color = Rgba(r: nat, g: nat, b: nat, a: nat)

  const DarkGrey := Rgba(45, 45, 45, 255)
  const DarkText := Rgba(52, 56, 56, 255)
  const LightText := Rgba(255, 255, 255, 255)
  const HelpBackground := Rgba(0, 223, 252, 200)
  const LightBlue := Rgba(0, 223, 252, 255)
  const Blue := Rgba(0, 180, 204, 255)
  const LightRed := Rgba(252, 45, 45, 255)
  const Red := Rgba(223, 0, 0, 255)
  const LightGreen := Rgba(45, 252, 45, 255)
  const Green := Rgba(0, 223, 0, 255)
  const LightYellow := Rgba(255, 255, 170, 255)
  const Yellow := Rgba(255, 255, 130, 255)
  const Grey := Rgba(52, 56, 56, 255)

  /** The interaction mode. Error, Success and Command carry text that the
      status bar shows; it plays no part in the colours. */
  datatype Mode =
    | Normal
    | MultiNormal
    | Error(message: string)
    | Success(message: string)
    | Command(input: string)
    | Exit

  /** The three colours of the status bar, left to right. */
  datatype Colors = Colors(primary: Color, secondary: Color, tertiary: Color)

  /** The four palettes a status bar can have. */
  const BluePalette := Colors(LightBlue, Blue, Grey)
  const RedPalette := Colors(LightRed, Red, Grey)
  const GreenPalette := Colors(LightGreen, Green, Grey)
  const YellowPalette := Colors(LightYellow, Yellow, Grey)

  /** Two modes of the same variant, whatever they carry. */
  predicate SameKind(m1: Mode, m2: Mode)
  {
    match (m1, m2)
    case (Normal, Normal) => true
    case (MultiNormal, MultiNormal) => true
    case (Error(_), Error(_)) => true
    case (Success(_), Success(_)) => true
    case (Command(_), Command(_)) => true
    case (Exit, Exit) => true
    case _ => false
  }

  /** `mode_colors`: every mode gets one of the four palettes, the filler
      segment is always grey, and the secondary colour tells the kind of mode
      apart: blue for Normal, MultiNormal and Exit, red for Error, green for
      Success, yellow for Command. */
  function ModeColors(m: Mode): (c: Colors)
    ensures c in {BluePalette, RedPalette, GreenPalette, YellowPalette}
    ensures c.tertiary == Grey
    ensures c.secondary == Blue <==> m.Normal? || m.MultiNormal? || m.Exit?
    ensures c.secondary == Red <==> m.Error?
    ensures c.secondary == Green <==> m.Success?
    ensures c.secondary == Yellow <==> m.Command?
  {
    match m
    case Normal | MultiNormal => BluePalette
    case Error(_) => RedPalette
    case Success(_) => GreenPalette
    case Command(_) => YellowPalette
    case Exit => BluePalette
  }

  /** `mode_text_color`: the status-bar text is light exactly in Error mode
      (against the red bar) and dark otherwise. */
  function ModeTextColor(m: Mode): (t: Color)
    ensures t == LightText <==> m.Error?
    ensures t == DarkText <==> !m.Error?
  {
    match m
    case Normal | MultiNormal | Exit | Command(_) | Success(_) => DarkText
    case Error(_) => LightText
  }

  /** Both mappings ignore the text a mode carries. */
  lemma StyleIgnoresPayload(m1: Mode, m2: Mode)
    requires SameKind(m1, m2)
    ensures ModeColors(m1) == ModeColors(m2)
    ensures ModeTextColor(m1) == ModeTextColor(m2)
  {
  }

  /** The text stands out against the two coloured segments it is drawn on in
      every mode, but outside Error mode it has exactly the colour of the grey
      filler segment, so it would vanish there. */
  lemma TextContrast(m: Mode)
    ensures ModeTextColor(m) != ModeColors(m).primary
    ensures ModeTextColor(m) != ModeColors(m).secondary
    ensures ModeTextColor(m) == ModeColors(m).tertiary <==> !m.Error?
  {
  }
}
