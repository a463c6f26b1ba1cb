/** The configuration constants the core reads (the rest of the configuration is credentials and the persona text). */
module Config {

  /** The primary administrator: always on the roster and never demoted. */
  const ADMIN_USER_ID: int := 6904183057

  /** History lines given to the model when a profile does not say otherwise. */
  const CONTEXT_WINDOW_DEFAULT: int := 20

  const UNAUTHORIZED_MESSAGE: string :=
    "The 10x Output General Manager is available for the rare few. For access, you may contact: ladiossato@gmail.com with the Subject: '10x GM AI Access'. In your email, explain why you wish to have access to the General Manager."

  const GROUP_REDIRECT_MESSAGE: string := "Please message me privately."
}
