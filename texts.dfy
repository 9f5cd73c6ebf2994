/**
 * The wording of the text tables: the topic articles of GetCybersecurityInfo
 * (AwarenessChatbot/ChatbotManager.cs) and the sentiment, keyword and
 * follow-up tables of the knowledge engine (AwarenessChatbot/CoreChatbot.cs).
 *
 * Which entry a table gives depends only on its keys, which stay with the code
 * that looks them up. The rest of the model takes the wording as a parameter,
 * a Prose value, and SourceProse is the wording the source ships with. The
 * wording affects the branch taken in two places only: the blank test of
 * Knowledge.Compose and the "I don't understand" test of Dispatch.Fallback.
 */
module Texts {

  /** A text with at least one character. */
  type Text = s: string | |s| > 0 witness "."

  /** The sentences of the four tables, as functions of their keys; every topic article has some text. */
  datatype Prose = Prose(
    topicArticle: nat -> Text,
    keywordAnswer: (string, nat) -> string,
    elaboration: string -> string,
    empathy: string -> string)

  /** The source's own wording. */
  function SourceProse(): Prose
  {
    Prose(Article, KeywordVariant, FollowUpText, SentimentPhrase)
  }

  /** The article at a position: the articles in the order of the source's switch. */
  function Article(i: nat): Text
  {
    if i == 0 then PhishingArticle()
    else if i == 1 then MalwareArticle()
    else if i == 2 then TwoFactorArticle()
    else if i == 3 then PasswordArticle()
    else if i == 4 then EncryptionArticle()
    else if i == 5 then FirewallArticle()
    else if i == 6 then VirusArticle()
    else if i == 7 then RansomwareArticle()
    else if i == 8 then VpnArticle()
    else if i == 9 then CybersecurityArticle()
    else if i == 10 then DataBreachArticle()
    else if i == 11 then SocialEngineeringArticle()
    else if i == 12 then SpywareArticle()
    else TrojanArticle()
  }

  function PhishingArticle(): Text
  {
    var text: string := "Phishing is a " + "cybercrime where " + "attackers trick " + "individuals into " +
    "revealing sensitive " + "information, often " + "through fake emails " +
    "or websites. Always " + "check the sender " + "and URL carefully!";
    assert |text| > 0;
    text
  }

  function MalwareArticle(): Text
  {
    var text: string := "Malware is " + "malicious software, " + "like viruses or " + "ransomware, " +
    "designed to damage " + "or gain unauthorized" + " access to computer " +
    "systems. Keep your " + "antivirus updated!";
    assert |text| > 0;
    text
  }

  function TwoFactorArticle(): Text
  {
    var text: string := "Two-Factor " + "Authentication " + "(2FA) adds an extra " + "layer of security " +
    "by requiring two " + "different methods " + "of verification to " + "log in, like a " +
    "password and a code " + "from your phone.";
    assert |text| > 0;
    text
  }

  function PasswordArticle(): Text
  {
    var text: string := "A strong password " + "is long (12+ " + "characters), " + "unique, and " +
    "combines uppercase, " + "lowercase, numbers, " + "and symbols. " + "Consider using a " +
    "password manager!";
    assert |text| > 0;
    text
  }

  function EncryptionArticle(): Text
  {
    var text: string := "Encryption is the " + "process of " + "converting " + "information or data " +
    "into a code to " + "prevent unauthorized" + " access. It's " + "crucial for " +
    "protecting " + "sensitive data.";
    assert |text| > 0;
    text
  }

  function FirewallArticle(): Text
  {
    var text: string := "A firewall is a " + "network security " + "system that " + "monitors and " +
    "controls incoming " + "and outgoing " + "network traffic " + "based on " +
    "predetermined " + "security rules. " + "It acts as a " + "barrier between " +
    "your internal " + "network and " + "external sources.";
    assert |text| > 0;
    text
  }

  function VirusArticle(): Text
  {
    var text: string := "A computer virus is " + "a type of malicious " + "software that, when " +
    "executed, replicates" + " itself by " + "modifying other " + "computer programs " +
    "and inserting its " + "own code.";
    assert |text| > 0;
    text
  }

  function RansomwareArticle(): Text
  {
    var text: string := "Ransomware is a " + "type of malicious " + "software that " + "threatens to " +
    "publish the " + "victim's data or " + "perpetually block " + "access to it unless " +
    "a ransom is paid.";
    assert |text| > 0;
    text
  }

  function VpnArticle(): Text
  {
    var text: string := "A Virtual Private " + "Network (VPN) " + "creates a secure, " + "encrypted connection" +
    " over a less secure " + "network, such as " + "the internet. It " + "helps protect your " +
    "online privacy and " + "security.";
    assert |text| > 0;
    text
  }

  function CybersecurityArticle(): Text
  {
    var text: string := "Cybersecurity is " + "the practice of " + "protecting systems, " + "networks, and " +
    "programs from " + "digital attacks. " + "It's about ensuring " + "confidentiality, " +
    "integrity, and " + "availability of " + "information.";
    assert |text| > 0;
    text
  }

  function DataBreachArticle(): Text
  {
    var text: string := "A data breach is a " + "security incident " + "where sensitive, " + "protected, or " +
    "confidential data " + "is copied, " + "transmitted, " + "viewed, stolen, or " +
    "used by an " + "individual " + "unauthorized to do so.";
    assert |text| > 0;
    text
  }

  function SocialEngineeringArticle(): Text
  {
    var text: string := "Social engineering " + "is the psychological" + " manipulation of " + "people into " +
    "performing actions " + "or divulging " + "confidential " + "information. " +
    "Attackers often use " + "deception to trick " + "victims.";
    assert |text| > 0;
    text
  }

  function SpywareArticle(): Text
  {
    var text: string := "Spyware is " + "malicious software " + "designed to enter " + "your computer " +
    "device, gather data " + "about you, and " + "forward it to a " + "third party without " +
    "your knowledge or " + "consent.";
    assert |text| > 0;
    text
  }

  function TrojanArticle(): Text
  {
    var text: string := "A Trojan horse, or " + "Trojan, is a type " + "of malicious code " + "or software that " +
    "looks legitimate " + "but can take " + "control of your " + "computer. It is " +
    "designed to damage, " + "disrupt, steal, or " + "inflict other " + "harmful actions.";
    assert |text| > 0;
    text
  }

  /** The empathetic phrase for a sentiment word. */
  function SentimentPhrase(key: string): string
  {
    if key == "worried" then "It's completely " + "understandable to " + "feel that way. "
    else if key == "frustrated" then "I understand that " + "can be frustrating. "
    else if key == "curious" then "That's a great " + "question to be " + "curious about! "
    else if key == "confused" then "It's okay to feel " + "confused, " + "cybersecurity can be complex. "
    else if key == "overwhelmed" then "Feeling overwhelmed " + "is common when " + "dealing with these " + "topics. "
    else ""
  }

  /** Answer i of a keyword. */
  function KeywordVariant(key: string, i: nat): string
  {
    if key == "password" then
      (if i == 0 then "Make sure to use " + "strong, unique " + "passwords for each " + "account. Avoid " + "using personal " + "details in your " + "passwords."
       else if i == 1 then "A strong password " + "combines uppercase " + "and lowercase " + "letters, numbers, " + "and symbols. Aim " + "for at least 12 " + "characters!"
       else "Using a password " + "manager can help " + "you create and " + "store complex, " + "unique passwords " + "securely.")
    else if key == "scam" then
      (if i == 0 then "Scams often involve " + "urgent requests for " + "money or personal " + "information. Always " + "verify the sender " + "before acting."
       else if i == 1 then "Be wary of " + "unsolicited " + "messages or calls " + "promising big " + "rewards. If it " + "sounds too good to " + "be true, it " + "probably is a scam."
       else "Common scams " + "include phishing, " + "tech support scams, " + "and romance scams. " + "Always be skeptical.")
    else if key == "privacy" then
      (if i == 0 then "Review the privacy " + "settings on your " + "social media and " + "online accounts " + "regularly. Limit " + "what information " + "you share publicly."
       else if i == 1 then "Understanding " + "privacy policies " + "helps you know how " + "your data is being " + "used. Always read " + "them if you can!"
       else "Protecting your " + "online privacy " + "means being mindful " + "of what you share " + "and who you share " + "it with.")
    else if key == "phishing" then
      (if i == 0 then "Be cautious of " + "emails asking for " + "personal " + "information. Scammers often " + "disguise themselves " + "as trusted " + "organisations."
       else if i == 1 then "Always check the " + "sender's email " + "address and look " + "for suspicious " + "links in phishing " + "attempts. Don't " + "click on them!"
       else "If an email seems " + "suspicious, don't " + "reply or click any " + "links. Instead, go " + "directly to the " + "official website or " + "contact the " + "organization by " + "phone.")
    else if key == "malware" then
      (if i == 0 then "Malware is " + "malicious software " + "designed to harm or " + "exploit your " + "computer system. It " + "includes viruses, " + "worms, and " + "ransomware."
       else "To protect against " + "malware, keep your " + "software updated, " + "use reputable " + "antivirus software, " + "and be careful " + "about opening " + "suspicious " + "attachments.")
    else if key == "2fa" then
      (if i == 0 then "Two-factor " + "authentication " + "(2FA) adds an extra " + "layer of security " + "by requiring a " + "second verification " + "step, like a code " + "from your phone, in " + "addition to your " + "password."
       else "Always enable 2FA " + "wherever possible, " + "especially for " + "sensitive accounts " + "like email and " + "banking.")
    else ""
  }

  /** The longer explanation given when the user asks for more about a keyword. */
  function FollowUpText(key: string): string
  {
    if key == "password" then "For more on " + "passwords: Consider " + "using a password " + "manager to securely " + "store and generate " + "complex passwords. " + "Two-factor " + "authentication " + "(2FA) adds another " + "layer of security."
    else if key == "scam" then "To elaborate on " + "scams: Common types " + "include phishing, " + "tech support scams, " + "and romance scams. " + "Always be skeptical " + "and verify " + "independently. " + "Never give out " + "personal details " + "over the phone " + "unless you " + "initiated the call."
    else if key == "privacy" then "More about privacy: " + "Data breaches can " + "expose your " + "personal " + "information. Regularly check " + "if your email or " + "passwords have been " + "compromised on " + "sites like Have I " + "Been Pwned. Also, " + "be mindful of app " + "permissions."
    else if key == "phishing" then "Further phishing " + "tips: Phishing can " + "also happen via " + "text messages " + "(smishing) or voice " + "calls (vishing). " + "The goal is always " + "to trick you into " + "revealing sensitive " + "data. If in doubt, " + "delete the message."
    else if key == "malware" then "Expanding on " + "malware: Ransomware " + "encrypts your files " + "and demands " + "payment, while " + "spyware secretly " + "monitors your " + "activity. Adware " + "floods you with " + "unwanted ads. " + "Regular backups are " + "crucial to recover " + "from ransomware."
    else if key == "2fa" then "More about 2FA: " + "While SMS-based 2FA " + "is common, " + "authenticator apps " + "(like Google " + "Authenticator or " + "Authy) are " + "generally more " + "secure as they " + "don't rely on phone " + "numbers that can be " + "swapped."
    else ""
  }

}
