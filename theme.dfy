/** The application's theme constants; only what the theme provider consults
    and what tells the themes apart is kept (palette colours and flags). */
module Themes {

  datatype Theme = Theme(dark: bool, background: string, card: string,
                         text: string, primary: string, border: string, notification: string)

  const LightTheme := Theme(false, "#FFFFFF", "#F0F0F0", "#000000", "#2B2B2B", "#E0E0E0", "#FF4D4D")
  const DarkTheme := Theme(true, "#121212", "#1E1E1E", "#FFFFFF", "#FFFFFF", "#333333", "#FF4D4D")
}
