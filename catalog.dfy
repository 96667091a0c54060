/** The static catalog: the questionnaire, the role database and the three
    learning roadmaps, with the well-formedness facts the scoring and the
    suggestion code rely on. */
module Catalog {
  import opened Types

  /** The ten questions of the questionnaire, in the order they are asked. */
  const QUESTIONS: seq<Question> := [
    Question("q1", "Offense or Defense?", "fa-shield-halved",
      "This is the fundamental " + "split. Do you enjoy " + "breaking things to find " + "weaknesses (Offense), " + "or building and defending " + "systems against attackers " + "(Defense)? Engineering " + "focuses on creating " + "secure systems, while " + "leadership involves " + "strategy and management.",
      SingleChoice, [QuestionOption("offense", "Offense (Pentest/Red " + "Team)"), QuestionOption("defense", "Defense (SOC/Blue Team)"), QuestionOption("engineering", "Engineering/Architecture"), QuestionOption("leadership", "Leadership/Strategy")]),
    Question("q2", "Math & Stats Comfort?", "fa-calculator",
      "Some specialized fields " + "like cryptography and " + "AI/ML security rely " + "on strong mathematical " + "concepts. Don't worry, " + "most roles don't require " + "advanced math, but this " + "helps us pinpoint niche " + "interests.",
      SingleChoice, [QuestionOption("strong", "Strong (algebra/calculus)"), QuestionOption("some", "Some comfort"), QuestionOption("low", "Not really")]),
    Question("q3", "Coding vs Analysis?", "fa-code",
      "Are you more drawn to " + "writing scripts and " + "building tools (Coding), " + "or piecing together " + "clues from logs and " + "data to uncover a story " + "(Analysis)? Many roles " + "involve both, but this " + "reveals your primary " + "inclination.",
      SingleChoice, [QuestionOption("coding", "Coding/Building"), QuestionOption("analysis", "Analysis/Investigation"), QuestionOption("both", "Both equally")]),
    Question("q4", "Leadership Interest?", "fa-user-tie",
      "Do you see yourself " + "managing teams, budgets, " + "and strategy in the " + "long run (Leadership), " + "or becoming a deep technical " + "expert in a specific " + "domain (Individual Contributor)?",
      SingleChoice, [QuestionOption("yes", "Yes - leadership track"), QuestionOption("no", "No - individual contributor"), QuestionOption("maybe", "Maybe in the future")]),
    Question("q5", "Current Technical Level?", "fa-chart-line",
      "This helps us tailor " + "the starting point of " + "your roadmap. Be honest " + "about your background " + "so we can recommend " + "the right foundational " + "skills without overwhelming " + "you.",
      SingleChoice, [QuestionOption("beginner", "Complete beginner (no " + "IT)"), QuestionOption("some_it", "Some IT background"), QuestionOption("developer", "Developer switching " + "to security"), QuestionOption("advancing", "Security pro advancing")]),
    Question("q6", "Primary Interest Area?", "fa-crosshairs",
      "Cybersecurity is vast! " + "Where do you want to " + "focus your skills? You " + "can pick multiple areas. " + "This is one of the most " + "important factors in " + "determining your ideal " + "role.",
      MultipleChoice, [QuestionOption("web_apps", "Web Applications"), QuestionOption("networks", "Networks & Infrastructure"), QuestionOption("cloud", "Cloud (AWS/Azure)"), QuestionOption("mobile", "Mobile Apps"), QuestionOption("osint", "Social Engineering/OSINT"), QuestionOption("malware", "Malware & Reverse Engineering")]),
    Question("q7", "Programming Experience?", "fa-terminal",
      "From simple automation " + "scripts to full-blown " + "application development, " + "your coding skill level " + "opens up different career " + "paths, especially in " + "AppSec and DevSecOps.",
      SingleChoice, [QuestionOption("none", "None"), QuestionOption("scripting", "Basic scripting (Bash/PS)"), QuestionOption("proficient", "Proficient in 1-2 languages"), QuestionOption("developer", "Software developer")]),
    Question("q8", "Weekly Time Commitment?", "fa-clock",
      "This doesn't affect " + "your role recommendation, " + "but it helps us adjust " + "the timeline of your " + "learning roadmap to " + "be realistic for your " + "schedule.",
      SingleChoice, [QuestionOption("5_10", "5-10 hours"), QuestionOption("10_20", "10-20 hours"), QuestionOption("20_plus", "20+ hours")]),
    Question("q9", "Preferred Learning Style?", "fa-book-open",
      "How do you learn best? " + "By doing (Hands-on), " + "watching (Videos), or " + "reading? We'll use this " + "to suggest the most " + "effective resources " + "for you.",
      SingleChoice, [QuestionOption("hands_on", "Hands-on labs (CTFs)"), QuestionOption("video", "Video tutorials & courses"), QuestionOption("reading", "Reading (books/blogs)"), QuestionOption("mixed", "Mixed approach")]),
    Question("q10", "Career Goal Timeline?", "fa-bullseye",
      "What's your motivation? " + "Are you casually exploring, " + "or on a mission to land " + "a job? This helps set " + "the pace and intensity " + "of the recommended roadmap.",
      SingleChoice, [QuestionOption("casual", "Exploring casually"), QuestionOption("6_12_months", "Job-ready in 6-12 months"), QuestionOption("1_2_years", "Job-ready in 1-2 years")])
  ]

  /** The thirteen roles, in catalog order (the order ties are ranked in). */
  const ROLE_DATABASE: seq<Role> := [
    Role("web_app_pentester", "Web Application Pentester", Offense,
      "Tests web apps for vulnerabilities " + "(XSS, SQLi, auth bypass).", "$70k-120k",
      ["Burp Suite", "OWASP Top 10", "Manual Testing"], ["OSWA", "BSCP", "OSWE"], "WEB_APP_PENTESTER_ROADMAP"),
    Role("network_pentester", "Network Pentester", Offense,
      "Assesses network infrastructure, " + "firewalls, and VPNs.", "$80k-130k",
      ["Nmap", "Metasploit", "Protocol Analysis"], ["OSCP", "PNPT", "eJPT"], "WEB_APP_PENTESTER_ROADMAP"),
    Role("red_team_operator", "Red Team Operator", Offense,
      "Simulates real-world " + "attacks, targeting the " + "full kill chain.", "$100k-160k",
      ["C2 Frameworks", "Evasion", "Active Directory"], ["CRTO", "OSEP"], "WEB_APP_PENTESTER_ROADMAP"),
    Role("bug_bounty_hunter", "Bug Bounty Hunter", Offense,
      "Freelance vulnerability " + "discovery on platforms " + "like HackerOne.", "Varies",
      ["Wide Attack Surface", "Automation", "Recon"], ["OSCP (helps)"], "WEB_APP_PENTESTER_ROADMAP"),
    Role("soc_analyst", "SOC Analyst", Defense,
      "Monitors SIEM, triages " + "alerts, and hunts for " + "threats.", "$60k-100k",
      ["Splunk/ELK", "Log Analysis", "Incident Triage"], ["Security+", "CySA+", "BTL1"], "SOC_ANALYST_ROADMAP"),
    Role("incident_responder", "Incident Responder", Defense,
      "Investigates breaches, " + "performs containment " + "and remediation.", "$85k-140k",
      ["Forensics", "Malware Triage", "IR Playbooks"], ["GCIH", "ECIR"], "SOC_ANALYST_ROADMAP"),
    Role("threat_hunter", "Threat Hunter", Defense,
      "Proactively searches " + "for undetected threats " + "within networks.", "$90k-150k",
      ["Threat Intel", "Anomaly Detection", "EDR"], ["GCTI", "GCIA"], "SOC_ANALYST_ROADMAP"),
    Role("appsec_engineer", "AppSec Engineer", Engineering,
      "Focuses on secure SDLC, " + "code review, and SAST/DAST " + "tooling.", "$110k-170k",
      ["Secure Coding", "Dependency Scanning", "DevSecOps"], ["CSSLP", "GWAPT"], "APPSEC_ENGINEER_ROADMAP"),
    Role("cloud_security_engineer", "Cloud Security Engineer", Engineering,
      "Secures cloud infrastructure " + "(AWS/Azure/GCP).", "$120k-180k",
      ["IAM", "CloudTrail", "GuardDuty", "Compliance"], ["AWS Security", "Azure Security"], "APPSEC_ENGINEER_ROADMAP"),
    Role("devsecops_engineer", "DevSecOps Engineer", Engineering,
      "Secures CI/CD pipelines, " + "IaC, and containers.", "$125k-190k",
      ["Docker", "Kubernetes", "Terraform"], ["Kubernetes Security"], "APPSEC_ENGINEER_ROADMAP"),
    Role("security_architect", "Security Architect", Engineering,
      "Designs enterprise security " + "architecture and strategy.", "$140k-220k",
      ["Zero Trust", "Risk Modeling", "Strategy"], ["CISSP", "SABSA"], "APPSEC_ENGINEER_ROADMAP"),
    Role("malware_analyst", "Malware Analyst", Specialized,
      "Reverse engineers malicious " + "code to understand its " + "function.", "$95k-155k",
      ["IDA Pro", "Ghidra", "x86 Assembly"], ["GREM", "GIAC"], "SOC_ANALYST_ROADMAP"),
    Role("exploit_developer", "Exploit Developer", Specialized,
      "Writes exploits for " + "vulnerabilities.", "$130k-250k+",
      ["C/C++", "Memory Corruption", "Shellcode"], ["OSED", "OSEE"], "WEB_APP_PENTESTER_ROADMAP")
  ]

  const WEB_APP_PENTESTER_ROADMAP: Roadmap := Roadmap("WEB_APP_PENTESTER_ROADMAP", "Web Application Pentester " + "Roadmap", [
      RoadmapPhase("foundations", "Foundations", "Month 1-3", "100-150 hours", [
        RoadmapTopic("networking_basics", "Networking Fundamentals",
          "Understand TCP/IP, DNS, " + "HTTP/HTTPS.", 20, [],
          [Resource("TryHackMe: Network Fundamentals", "https://tryhackme.com/room/networkfundamentals", Free, "Interactive Labs")],
          "Understand how web traffic " + "flows."),
        RoadmapTopic("linux_fundamentals", "Linux Command Line",
          "Master bash and file " + "system navigation.", 30, [],
          [Resource("OverTheWire: Bandit", "https://overthewire.org/wargames/bandit/", Free, "CTF Challenges")],
          "Most security tools " + "run on Linux."),
        RoadmapTopic("web_fundamentals", "HTTP & Web Fundamentals",
          "Learn the core of how " + "the web works.", 15, [],
          [Resource("PortSwigger: How The " + "Web Works", "https://portswigger.net/web-security/how-the-web-works", Free, "Reading")],
          "Essential for any web-based " + "role."),
        RoadmapTopic("scripting_basics", "HTML, CSS, JS Basics",
          "Basic understanding " + "of frontend code.", 40, [],
          [Resource("freeCodeCamp: Responsive " + "Web Design", "https://www.freecodecamp.org/learn/2022/responsive-web-design/", Free, "Course")],
          "Helps in identifying " + "client-side vulnerabilities.")
      ]),
      RoadmapPhase("core_skills", "Core Skills", "Month 4-8", "200-300 hours", [
        RoadmapTopic("owasp_top10", "OWASP Top 10",
          "Master critical web " + "vulnerabilities.", 80, ["web_fundamentals"],
          [Resource("PortSwigger Web Security " + "Academy", "https://portswigger.net/web-security", Free, "Labs & Reading")],
          "This is the bread and " + "butter of web pentesting."),
        RoadmapTopic("burp_suite", "Burp Suite Mastery",
          "Learn the industry-standard " + "tool.", 50, ["web_fundamentals"],
          [Resource("TryHackMe: Burp Suite " + "Rooms", "https://tryhackme.com/paths", Free, "Labs")],
          "Your primary tool for " + "web application testing."),
        RoadmapTopic("manual_testing", "Manual Testing Methodology",
          "Develop a systematic " + "testing process.", 60, ["owasp_top10"],
          [Resource("OWASP Testing Guide v4", "https://owasp.org/www-project-web-security-testing-guide/v4.2/", Free, "Reading")],
          "Tools find some things, " + "manual testing finds " + "the rest.")
      ]),
      RoadmapPhase("advanced", "Advanced", "Month 9-12", "150-250 hours", [
        RoadmapTopic("advanced_attacks", "Advanced Web Attacks",
          "Explore SSTI, Deserialization, " + "XXE, SSRF.", 60, ["owasp_top10"],
          [Resource("PortSwigger Advanced " + "Labs", "https://portswigger.net/web-security", Free, "Labs")],
          "Move beyond the basics " + "to find more complex " + "bugs."),
        RoadmapTopic("api_security", "API Security Testing",
          "Learn to test modern " + "APIs (REST, GraphQL).", 40, ["owasp_top10"],
          [Resource("OWASP API Security Top " + "10", "https://owasp.org/www-project-api-security/", Free, "Reading")],
          "APIs are a huge and " + "often overlooked attack " + "surface."),
        RoadmapTopic("cert_prep", "Certification Prep: " + "OSWA/BSCP",
          "Prepare for a respected " + "industry certification.", 80, [],
          [Resource("OffSec Web Assessor " + "(OSWA)", "https://www.offsec.com/courses/web-200/", Paid, "Course")],
          "Certs can help you get " + "your first job.")
      ])
    ])

  const SOC_ANALYST_ROADMAP: Roadmap := Roadmap("SOC_ANALYST_ROADMAP", "SOC Analyst Roadmap", [
      RoadmapPhase("foundations", "Foundations", "Month 1-3", "120-180 hours", [
        RoadmapTopic("networking_basics_soc", "Networking Fundamentals",
          "Deep dive into TCP/IP, " + "DNS, DHCP, and logs.", 40, [],
          [Resource("Professor Messer Network+", "https://www.professormesser.com/network-plus/n10-008/n10-008-video/n10-008-training-course/", Free, "Video Series")],
          "You cannot defend what " + "you do not understand."),
        RoadmapTopic("os_fundamentals", "OS Fundamentals (Windows/Linux)",
          "Understand operating " + "system processes, logs, " + "and security.", 50, [],
          [Resource("TryHackMe: Windows Fundamentals", "https://tryhackme.com/module/windows-fundamentals", Free, "Labs")],
          "Most alerts originate " + "from endpoints."),
        RoadmapTopic("security_plus", "Security+ Concepts",
          "Learn the core vocabulary " + "and concepts of cybersecurity.", 40, [],
          [Resource("Professor Messer Security+", "https://www.professormesser.com/security-plus/sy0-601/sy0-601-video/sy0-601-comptia-security-plus-course/", Free, "Video Series")],
          "The baseline knowledge " + "for any security role.")
      ]),
      RoadmapPhase("core_skills", "Core SOC Skills", "Month 4-8", "200-300 hours", [
        RoadmapTopic("siem_basics", "SIEM and Log Analysis",
          "Learn to use tools like " + "Splunk or ELK to analyze " + "logs.", 80, ["networking_basics_soc"],
          [Resource("Splunk Free Fundamentals", "https://www.splunk.com/en_us/training/free-courses/splunk-fundamentals-1.html", Free, "Course")],
          "The SIEM is your primary " + "tool as a SOC analyst."),
        RoadmapTopic("incident_response", "Incident Response Lifecycle",
          "Learn the PICERL framework " + "for handling incidents.", 60, ["security_plus"],
          [Resource("LetsDefend.io", "https://letsdefend.io/", Paid, "Interactive Platform")],
          "Provides a structured " + "way to handle security " + "events."),
        RoadmapTopic("threat_intel", "Cyber Threat Intelligence",
          "Understand how to use " + "threat intel to identify " + "threats.", 40, [],
          [Resource("SANS CTI YouTube Playlist", "https://www.youtube.com/watch?v=g8u0I-242gE&list=PLaWqaI_B1im9ryd5k3s31p_m8a-Y27s-z", Free, "Video Series")],
          "Contextualizes alerts " + "and helps in proactive " + "defense.")
      ])
    ])

  const APPSEC_ENGINEER_ROADMAP: Roadmap := Roadmap("APPSEC_ENGINEER_ROADMAP", "Application Security " + "Engineer Roadmap", [
      RoadmapPhase("foundations", "Developer Foundations", "Month 1-2", "80-120 hours", [
        RoadmapTopic("sdlc_basics", "Secure SDLC",
          "Learn how security fits " + "into the software development " + "lifecycle.", 30, [],
          [Resource("OWASP SAMM", "https://owaspsamm.org/", Free, "Reading")],
          "The core philosophy " + "of shifting security " + "left."),
        RoadmapTopic("secure_coding", "Secure Coding Principles",
          "Understand principles " + "like input validation, " + "output encoding, least " + "privilege.", 50, [],
          [Resource("OWASP Secure Coding " + "Practices", "https://owasp.org/www-project-secure-coding-practices-quick-reference-guide/", Free, "Reading")],
          "Prevent vulnerabilities " + "before they are written.")
      ]),
      RoadmapPhase("core_skills", "Core AppSec Skills", "Month 3-7", "200-300 hours", [
        RoadmapTopic("sast_dast", "SAST, DAST, and IAST",
          "Learn to use and interpret " + "results from AppSec " + "tools.", 70, ["secure_coding"],
          [Resource("SonarQube Documentation", "https://docs.sonarqube.org/latest/", Free, "Reading")],
          "Automated tooling is " + "key to scaling AppSec."),
        RoadmapTopic("dependency_scanning", "Software Composition " + "Analysis (SCA)",
          "Find and manage vulnerabilities " + "in third-party libraries.", 50, [],
          [Resource("OWASP Dependency-Check", "https://owasp.org/www-project-dependency-check/", Free, "Tool")],
          "You are responsible " + "for the security of " + "your dependencies."),
        RoadmapTopic("threat_modeling", "Threat Modeling",
          "Proactively identify " + "threats in application " + "design.", 60, ["sdlc_basics"],
          [Resource("OWASP Threat Modeling " + "Cheat Sheet", "https://cheatsheetseries.owasp.org/cheatsheets/Threat_Modeling_Cheat_Sheet.html", Free, "Reading")],
          "Find and fix design " + "flaws before a line " + "of code is written.")
      ])
    ])

  const ROADMAPS: seq<Roadmap> := [WEB_APP_PENTESTER_ROADMAP, SOC_ANALYST_ROADMAP, APPSEC_ENGINEER_ROADMAP]

  /** A position in a roadmap: phase `p`, topic `t` within that phase. */
  predicate ValidPos(rm: Roadmap, p: int, t: int)
  {
    0 <= p < |rm.phases| && 0 <= t < |rm.phases[p].topics|
  }

  /** Position (p1, t1) comes before (p2, t2) in phase-then-topic order. */
  predicate Earlier(p1: int, t1: int, p2: int, t2: int)
  {
    p1 < p2 || (p1 == p2 && t1 < t2)
  }

  /** Every prerequisite of a topic is the id of a topic of the same roadmap
      at an earlier position, so the prerequisite graph has no cycle. */
  ghost predicate PrerequisitesPointBackward(rm: Roadmap)
  {
    forall p, t, q :: ValidPos(rm, p, t) && q in rm.phases[p].topics[t].prerequisites ==>
      exists p', t' :: ValidPos(rm, p', t') && Earlier(p', t', p, t) && rm.phases[p'].topics[t'].id == q
  }

  lemma QuestionIdsAreUnique()
    ensures forall i, j :: 0 <= i < j < |QUESTIONS| ==> QUESTIONS[i].id != QUESTIONS[j].id
  {
  }

  /** q6 is the only multiple-choice question. */
  lemma OnlyQ6IsMultipleChoice()
    ensures |QUESTIONS| == 10 && QUESTIONS[5].id == "q6"
    ensures forall i :: 0 <= i < |QUESTIONS| ==> (QUESTIONS[i].kind == MultipleChoice <==> i == 5)
  {
  }

  /** The role ids, in catalog order. */
  const ROLE_IDS: seq<string> := ["web_app_pentester", "network_pentester", "red_team_operator",
    "bug_bounty_hunter", "soc_analyst", "incident_responder", "threat_hunter", "appsec_engineer",
    "cloud_security_engineer", "devsecops_engineer", "security_architect", "malware_analyst", "exploit_developer"]

  lemma RoleIdList()
    ensures |ROLE_DATABASE| == |ROLE_IDS|
    ensures forall i :: 0 <= i < |ROLE_DATABASE| ==> ROLE_DATABASE[i].id == ROLE_IDS[i]
  {
  }

  lemma RoleIdListIsDistinct()
    ensures forall i, j :: 0 <= i < j < |ROLE_IDS| ==> ROLE_IDS[i] != ROLE_IDS[j]
  {
  }

  /** No two roles share an id, so `find` by id picks out one role. */
  lemma RoleIdsAreUnique()
    ensures |ROLE_DATABASE| == 13
    ensures forall i, j :: 0 <= i < j < |ROLE_DATABASE| ==> ROLE_DATABASE[i].id != ROLE_DATABASE[j].id
  {
    RoleIdList();
    RoleIdListIsDistinct();
  }

  /** All topics of the phases, in order. */
  function AllTopics(phases: seq<RoadmapPhase>): (ts: seq<RoadmapTopic>)
  {
    if phases == [] then [] else AllTopics(phases[..|phases| - 1]) + phases[|phases| - 1].topics
  }

  lemma AllTopicsOfTwo(phases: seq<RoadmapPhase>)
    requires |phases| == 2
    ensures AllTopics(phases) == phases[0].topics + phases[1].topics
  {
    assert phases[..1][..0] == [];
    assert AllTopics(phases[..1]) == phases[0].topics;
    assert phases[..2] == phases;
  }

  lemma AllTopicsOfThree(phases: seq<RoadmapPhase>)
    requires |phases| == 3
    ensures AllTopics(phases) == phases[0].topics + phases[1].topics + phases[2].topics
  {
    AllTopicsOfTwo(phases[..2]);
  }

  /** The ids of a list of topics. */
  function TopicIdList(ts: seq<RoadmapTopic>): (ids: seq<string>)
    ensures |ids| == |ts| && forall i :: 0 <= i < |ts| ==> ids[i] == ts[i].id
  {
    seq(|ts|, i requires 0 <= i < |ts| => ts[i].id)
  }

  const WEB_TOPIC_IDS: seq<string> := ["networking_basics", "linux_fundamentals", "web_fundamentals",
    "scripting_basics", "owasp_top10", "burp_suite", "manual_testing", "advanced_attacks", "api_security", "cert_prep"]
  const SOC_TOPIC_IDS: seq<string> := ["networking_basics_soc", "os_fundamentals", "security_plus",
    "siem_basics", "incident_response", "threat_intel"]
  const APPSEC_TOPIC_IDS: seq<string> := ["sdlc_basics", "secure_coding",
    "sast_dast", "dependency_scanning", "threat_modeling"]

  lemma WebTopicIds()
    ensures TopicIdList(AllTopics(WEB_APP_PENTESTER_ROADMAP.phases)) == WEB_TOPIC_IDS
  {
    AllTopicsOfThree(WEB_APP_PENTESTER_ROADMAP.phases);
  }

  lemma SocTopicIds()
    ensures TopicIdList(AllTopics(SOC_ANALYST_ROADMAP.phases)) == SOC_TOPIC_IDS
  {
    AllTopicsOfTwo(SOC_ANALYST_ROADMAP.phases);
  }

  lemma AppSecTopicIds()
    ensures TopicIdList(AllTopics(APPSEC_ENGINEER_ROADMAP.phases)) == APPSEC_TOPIC_IDS
  {
    AllTopicsOfTwo(APPSEC_ENGINEER_ROADMAP.phases);
  }

  lemma TopicIdListIsDistinct()
    ensures var ids := WEB_TOPIC_IDS + SOC_TOPIC_IDS + APPSEC_TOPIC_IDS;
      forall i, j :: 0 <= i < j < |ids| ==> ids[i] != ids[j]
  {
  }

  /** No two topics of the list share an id. */
  ghost predicate DistinctTopicIds(ts: seq<RoadmapTopic>)
  {
    forall i, j :: 0 <= i < j < |ts| ==> ts[i].id != ts[j].id
  }

  /** The topics of all three roadmaps, in catalog order. */
  function CatalogTopics(): seq<RoadmapTopic>
  {
    AllTopics(WEB_APP_PENTESTER_ROADMAP.phases) + AllTopics(SOC_ANALYST_ROADMAP.phases)
      + AllTopics(APPSEC_ENGINEER_ROADMAP.phases)
  }

  /** Topics whose id list has no repeated entry have distinct ids. */
  lemma DistinctIdListGivesDistinctTopics(a: seq<RoadmapTopic>, b: seq<RoadmapTopic>, c: seq<RoadmapTopic>, ids: seq<string>)
    requires TopicIdList(a) + TopicIdList(b) + TopicIdList(c) == ids
    requires forall i, j :: 0 <= i < j < |ids| ==> ids[i] != ids[j]
    ensures DistinctTopicIds(a + b + c)
  {
    assert TopicIdList(a + b + c) == ids;
  }

  /** Topic ids are unique across all three roadmaps, so one progress map can
      hold the records of every roadmap without two topics sharing a record. */
  lemma TopicIdsAreUnique()
    ensures DistinctTopicIds(CatalogTopics())
  {
    WebTopicIds();
    SocTopicIds();
    AppSecTopicIds();
    TopicIdListIsDistinct();
    DistinctIdListGivesDistinctTopics(AllTopics(WEB_APP_PENTESTER_ROADMAP.phases), AllTopics(SOC_ANALYST_ROADMAP.phases),
      AllTopics(APPSEC_ENGINEER_ROADMAP.phases), WEB_TOPIC_IDS + SOC_TOPIC_IDS + APPSEC_TOPIC_IDS);
  }

  lemma WebRoadmapPrerequisitesPointBackward()
    ensures PrerequisitesPointBackward(WEB_APP_PENTESTER_ROADMAP)
  {
    var rm := WEB_APP_PENTESTER_ROADMAP;
    forall p, t, q | ValidPos(rm, p, t) && q in rm.phases[p].topics[t].prerequisites
      ensures exists p', t' :: ValidPos(rm, p', t') && Earlier(p', t', p, t) && rm.phases[p'].topics[t'].id == q
    {
      if p == 1 && t <= 1 {
        assert ValidPos(rm, 0, 2) && rm.phases[0].topics[2].id == q;
      } else if p == 1 || (p == 2 && t <= 1) {
        assert ValidPos(rm, 1, 0) && rm.phases[1].topics[0].id == q;
      } else {
        assert false;
      }
    }
  }

  lemma SocRoadmapPrerequisitesPointBackward()
    ensures PrerequisitesPointBackward(SOC_ANALYST_ROADMAP)
  {
    var rm := SOC_ANALYST_ROADMAP;
    forall p, t, q | ValidPos(rm, p, t) && q in rm.phases[p].topics[t].prerequisites
      ensures exists p', t' :: ValidPos(rm, p', t') && Earlier(p', t', p, t) && rm.phases[p'].topics[t'].id == q
    {
      if p == 1 && t == 0 {
        assert ValidPos(rm, 0, 0) && rm.phases[0].topics[0].id == q;
      } else if p == 1 && t == 1 {
        assert ValidPos(rm, 0, 2) && rm.phases[0].topics[2].id == q;
      } else {
        assert false;
      }
    }
  }

  lemma AppSecRoadmapPrerequisitesPointBackward()
    ensures PrerequisitesPointBackward(APPSEC_ENGINEER_ROADMAP)
  {
    var rm := APPSEC_ENGINEER_ROADMAP;
    forall p, t, q | ValidPos(rm, p, t) && q in rm.phases[p].topics[t].prerequisites
      ensures exists p', t' :: ValidPos(rm, p', t') && Earlier(p', t', p, t) && rm.phases[p'].topics[t'].id == q
    {
      if p == 1 && t == 0 {
        assert ValidPos(rm, 0, 1) && rm.phases[0].topics[1].id == q;
      } else if p == 1 && t == 2 {
        assert ValidPos(rm, 0, 0) && rm.phases[0].topics[0].id == q;
      } else {
        assert false;
      }
    }
  }

  /** Every prerequisite in the catalog names an earlier topic of the same
      roadmap: the prerequisite graph is acyclic. */
  lemma CatalogPrerequisitesPointBackward()
    ensures forall r :: 0 <= r < |ROADMAPS| ==> PrerequisitesPointBackward(ROADMAPS[r])
  {
    WebRoadmapPrerequisitesPointBackward();
    SocRoadmapPrerequisitesPointBackward();
    AppSecRoadmapPrerequisitesPointBackward();
  }

  lemma FirstTopicsHaveNoPrerequisites()
    ensures forall r :: 0 <= r < |ROADMAPS| ==>
      ValidPos(ROADMAPS[r], 0, 0) && ROADMAPS[r].phases[0].topics[0].prerequisites == []
  {
  }
}
