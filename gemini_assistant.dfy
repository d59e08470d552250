/**
 * gemini_assistant.py: troubleshooting help for a ticket. With a Gemini
 * client, the answer is the model's text; without one, or when the call
 * fails or returns nothing, a canned answer for the ticket's type.
 *
 * The generation call is a parameter; the texts of the five system
 * prompts are not modelled (a prompt is named by its topic).
 */
module GeminiAssistant {
  import opened Wrappers
  import opened PyText

  /** The ticket types both tables have an entry for. */
  const KnownTypes: set<string> := {"hardware", "software", "network", "account", "other"}

  /** The entries of both tables. */
  datatype Topic = Hardware | Software | Network | Account | Other

  function TopicName(t: Topic): string {
    match t
    case Hardware => "hardware"
    case Software => "software"
    case Network => "network"
    case Account => "account"
    case Other => "other"
  }

  /** `table.get(ticket_type, table["other"])`: the entry a lookup lands on. */
  function TableKey(ticketType: string): (k: Topic)
    ensures TopicName(k) == ticketType <==> ticketType in KnownTypes
    ensures ticketType !in KnownTypes ==> k == Other
  {
    if ticketType == "hardware" then Hardware
    else if ticketType == "software" then Software
    else if ticketType == "network" then Network
    else if ticketType == "account" then Account
    else Other
  }

  /** A specialist system prompt, named by the topic it is written for. */
  datatype Prompt = SpecialistPrompt(topic: Topic)

  /** `_get_system_prompt`: the prompt for a known type, the "other" prompt for any other. */
  function SystemPrompt(ticketType: string): (p: Prompt)
    ensures ticketType in KnownTypes ==> TopicName(p.topic) == ticketType
    ensures ticketType !in KnownTypes ==> p == SpecialistPrompt(Other)
  {
    SpecialistPrompt(TableKey(ticketType))
  }

  /** One entry of the fallback table. */
  datatype Guidance = Guidance(analysis: string, steps: seq<string>, escalation: string)

  const HardwareGuidance: Guidance := Guidance(
    "This appears to be a hardware-related issue that may require physical troubleshooting.",
    ["Check all physical connections and cables",
     "Restart the affected device",
     "Check for any error lights or unusual sounds",
     "Try the device on a different power outlet"],
    "If the issue persists, contact your IT support team or consider professional repair services.")

  const SoftwareGuidance: Guidance := Guidance(
    "This seems to be a software-related issue that can often be resolved through troubleshooting.",
    ["Close and restart the affected application",
     "Check for software updates",
     "Restart your computer",
     "Run the application as administrator (if on Windows)"],
    "If the problem continues, check the software vendor's support documentation or contact their support team.")

  const NetworkGuidance: Guidance := Guidance(
    "This appears to be a network connectivity issue that may affect internet or local network access.",
    ["Check if other devices can connect to the network",
     "Restart your router/modem by unplugging for 30 seconds",
     "Forget and reconnect to the WiFi network",
     "Run network diagnostics on your device"],
    "If connectivity issues persist, contact your Internet Service Provider or network administrator.")

  const AccountGuidance: Guidance := Guidance(
    "This seems to be an account access or authentication issue.",
    ["Try resetting your password using the 'Forgot Password' option",
     "Check if your account has been locked or suspended",
     "Verify you're using the correct username/email",
     "Clear your browser cache and cookies"],
    "If you still can't access your account, contact the service provider's customer support directly.")

  const OtherGuidance: Guidance := Guidance(
    "This appears to be a general support request that may require further investigation.",
    ["Document the exact error message or symptoms",
     "Note when the issue first occurred",
     "Try restarting the affected system or application",
     "Check if the issue affects other users or systems"],
    "For complex issues, consider contacting specialized technical support or your IT department.")

  /** `fallback_responses[key]`: every entry has four steps. */
  function GuidanceFor(topic: Topic): (g: Guidance)
    ensures |g.steps| == 4
  {
    match topic
    case Hardware => HardwareGuidance
    case Software => SoftwareGuidance
    case Network => NetworkGuidance
    case Account => AccountGuidance
    case Other => OtherGuidance
  }

  const Note: string :=
    "This is an automated response. For personalized assistance, please ensure Gemini AI is configured."

  const ModelName: string := "gemini-pro"

  /** What `get_assistance` returns: the `fallback` or the `ai_generated` dictionary. */
  datatype Assistance =
    | Fallback(ticketType: string, analysis: string, recommendedSteps: seq<string>,
               escalationGuidance: string, note: string)
    | AiGenerated(ticketType: string, response: string, model: string)

  /**
   * `_get_fallback_response`: the table entry for the type (the "other"
   * entry for an unknown one), labelled with the caller's own type.
   */
  function FallbackResponse(ticketText: string, ticketType: string): (r: Assistance)
    ensures r.Fallback? && r.ticketType == ticketType && r.note == Note
    ensures |r.recommendedSteps| == 4
    ensures var g := GuidanceFor(TableKey(ticketType));
      r.analysis == g.analysis && r.recommendedSteps == g.steps && r.escalationGuidance == g.escalation
  {
    var g := GuidanceFor(TableKey(ticketType));
    Fallback(ticketType, g.analysis, g.steps, g.escalation, Note)
  }

  /** An unknown type gets the "other" guidance, under its own name. */
  lemma UnknownTypeGetsOther(ticketText: string, ticketType: string)
    requires ticketType !in KnownTypes
    ensures var o := FallbackResponse(ticketText, "other");
      FallbackResponse(ticketText, ticketType) ==
        Fallback(ticketType, o.analysis, o.recommendedSteps, o.escalationGuidance, o.note)
  {
  }

  /** The Gemini client; `GenerativeModel('gemini-pro')`. */
  datatype Client = GenerativeModel(name: string)

  datatype Assistant = Assistant(client: Option<Client>)

  /**
   * `__init__`: a client only when `GEMINI_API_KEY` is set (non-empty) and
   * importing and configuring the library succeed (`connects`).
   */
  function NewAssistant(apiKey: Option<string>, connects: bool): (a: Assistant)
    ensures a.client.Some? <==> Given(apiKey) && connects
    ensures a.client.Some? ==> a.client.value.name == ModelName
  {
    if Given(apiKey) && connects then Assistant(Some(GenerativeModel(ModelName))) else Assistant(None)
  }

  /** `is_ready`. */
  function IsReady(a: Assistant): (b: bool)
    ensures b <==> a.client.Some?
  {
    a.client != None
  }

  /** What the assistant asks Gemini: the system prompt, the ticket and its type. */
  datatype Request = Request(system: Prompt, ticketText: string, ticketType: string)

  /** `generate_content`: it raises, or it returns a response whose text may be empty. */
  datatype Generated = Raised | Returned(text: string)

  /**
   * `get_assistance`: the stripped generated text when a client exists and
   * the call returns non-empty text; the fallback in every other case.
   */
  function GetAssistance(a: Assistant, ticketText: string, ticketType: string,
                         generate: Request -> Generated): (r: Assistance)
    ensures r.ticketType == ticketType
    ensures var g := generate(Request(SystemPrompt(ticketType), ticketText, ticketType));
      r.AiGenerated? <==> a.client.Some? && g.Returned? && g.text != ""
    ensures r.AiGenerated? ==>
      var g := generate(Request(SystemPrompt(ticketType), ticketText, ticketType));
      r.response == Strip(g.text) && r.model == ModelName
    ensures r.Fallback? ==> r == FallbackResponse(ticketText, ticketType)
  {
    if a.client.None? then FallbackResponse(ticketText, ticketType)
    else
      match generate(Request(SystemPrompt(ticketType), ticketText, ticketType))
      case Raised => FallbackResponse(ticketText, ticketType)
      case Returned(text) =>
        if text != "" then AiGenerated(ticketType, Strip(text), ModelName)
        else FallbackResponse(ticketText, ticketType)
  }

  /** An assistant that is not ready always answers with the fallback, whatever Gemini would say. */
  lemma NotReadyFallsBack(a: Assistant, ticketText: string, ticketType: string,
                          g1: Request -> Generated, g2: Request -> Generated)
    requires !IsReady(a)
    ensures GetAssistance(a, ticketText, ticketType, g1) == GetAssistance(a, ticketText, ticketType, g2)
    ensures GetAssistance(a, ticketText, ticketType, g1).Fallback?
  {
  }

  /**
   * A reply of nothing but whitespace is non-empty, so it is passed on, and
   * the caller receives an empty `response`.
   */
  lemma {:induction false} BlankReplyPassedOn(a: Assistant, ticketText: string, ticketType: string,
                                              generate: Request -> Generated)
    requires a.client.Some?
    requires var g := generate(Request(SystemPrompt(ticketType), ticketText, ticketType));
      g.Returned? && g.text != "" && AllSpace(g.text)
    ensures GetAssistance(a, ticketText, ticketType, generate) == AiGenerated(ticketType, "", ModelName)
  {
    var g := generate(Request(SystemPrompt(ticketType), ticketText, ticketType));
    assert Strip(g.text) == "";
  }
}
