/** The investing-platform guide of investment_platforms.py: a fixed
    catalogue of platforms, the pick by experience level, and the text
    blocks handed to the assistant. */
module InvestmentPlatforms {
  import Text

  /** One platform of the catalogue. */
  datatype Platform = Platform(
    name: string,
    url: string,
    bestFor: string,
    pros: seq<string>,
    cons: seq<string>,
    simpleExplanation: string,
    howToStart: seq<string>)

  /** The "international" platforms, in catalogue order. */
  const International: seq<Platform> := [InteractiveBrokers, Etoro, SaxoBank]

  /** The "crypto_friendly" platforms, in catalogue order. */
  const CryptoFriendly: seq<Platform> := [Binance]

  /** get_platform_recommendations: eToro and Binance for a beginner,
      Interactive Brokers and eToro for an intermediate investor, and every
      international platform for any other level. */
  function GetPlatformRecommendations(userLevel: string): (r: seq<Platform>)
    ensures userLevel == "beginner" ==>
      |r| == 2 && r[0].name == "eToro" && r[1].name == "Binance"
    ensures userLevel == "intermediate" ==>
      |r| == 2 && r[0].name == "Interactive Brokers" && r[1].name == "eToro"
    ensures userLevel != "beginner" && userLevel != "intermediate" ==>
      |r| == 3 && r[0].name == "Interactive Brokers" && r[1].name == "eToro" && r[2].name == "Saxo Bank"
    ensures forall p :: p in r ==> p in International || p in CryptoFriendly
    ensures forall p :: p in r && p in CryptoFriendly ==> userLevel == "beginner"
  {
    if userLevel == "beginner" then [International[1], CryptoFriendly[0]]
    else if userLevel == "intermediate" then [International[0], International[1]]
    else International
  }

  const ProPrefix: string := "   ✅ "
  const ConPrefix: string := "   ⚠️ "
  const StepPrefix: string := "   "

  /** Each item behind the same prefix, in order. */
  function PrefixEach(prefix: string, items: seq<string>): (r: seq<string>)
    ensures |r| == |items|
    ensures forall i :: 0 <= i < |items| ==> r[i] == prefix + items[i]
  {
    seq(|items|, i requires 0 <= i < |items| => prefix + items[i])
  }

  /** The prefixed items, one per line. */
  function PrefixedList(prefix: string, items: seq<string>): string
  {
    Text.Join("\n", PrefixEach(prefix, items))
  }

  /** Items without line breaks come back out of the list line by line,
      each behind its prefix and in the original order. */
  lemma PrefixedListLines(prefix: string, items: seq<string>)
    requires |items| >= 1
    requires '\n' !in prefix && forall i :: 0 <= i < |items| ==> '\n' !in items[i]
    ensures Text.Split('\n', PrefixedList(prefix, items)) == PrefixEach(prefix, items)
  {
    var lines := PrefixEach(prefix, items);
    forall i | 0 <= i < |lines|
      ensures '\n' !in lines[i]
    {
      assert lines[i] == prefix + items[i];
    }
    Text.SplitJoin('\n', lines);
  }

  /** The first line of a platform's block: its name in bold and its URL. */
  function BlockHeading(p: Platform): string
  {
    "\n**" + p.name + "** (" + p.url + ")\n"
  }

  /** format_platform_info_for_ai */
  function FormatPlatformInfo(p: Platform): string
  {
    BlockHeading(p)
    + ("📝 Best for: " + p.bestFor + "\n\n"
       + "💭 Simple explanation: " + p.simpleExplanation + "\n\n"
       + "Pros:\n" + PrefixedList(ProPrefix, p.pros) + "\n\n"
       + "Cons:\n" + PrefixedList(ConPrefix, p.cons) + "\n\n"
       + "How to get started:\n" + PrefixedList(StepPrefix, p.howToStart) + "\n")
  }

  /** A platform's block names the platform and gives its URL. */
  lemma FormattedBlockNamesPlatform(p: Platform)
    ensures Text.Contains(p.name, FormatPlatformInfo(p))
    ensures Text.Contains(p.url, FormatPlatformInfo(p))
  {
    var r := FormatPlatformInfo(p);
    var h := BlockHeading(p);
    assert r[..|h|] == h;
    assert h[3..3 + |p.name|] == p.name;
    assert Text.OccursAt(p.name, r, 3);
    var u := 3 + |p.name| + 4;
    assert h[u..u + |p.url|] == p.url;
    assert Text.OccursAt(p.url, r, u);
  }

  const ListingHeader: string := "# Investment Platforms Available:\n"

  /** The block of each platform, in order. */
  function Blocks(platforms: seq<Platform>): (r: seq<string>)
    ensures |r| == |platforms|
    ensures forall i :: 0 <= i < |platforms| ==> r[i] == FormatPlatformInfo(platforms[i])
  {
    seq(|platforms|, i requires 0 <= i < |platforms| => FormatPlatformInfo(platforms[i]))
  }

  /** The header and one block per platform, joined by line breaks. */
  function Listing(platforms: seq<Platform>): string
  {
    Text.Join("\n", [ListingHeader] + Blocks(platforms))
  }

  /** The blocks of one list of platforms come before those of the list
      that follows it. */
  lemma BlocksAppend(first: seq<Platform>, second: seq<Platform>)
    ensures Blocks(first + second) == Blocks(first) + Blocks(second)
  {
    var all := first + second;
    forall i | 0 <= i < |all|
      ensures Blocks(all)[i] == (Blocks(first) + Blocks(second))[i]
    {
      if i < |first| {
        assert all[i] == first[i];
      } else {
        assert all[i] == second[i - |first|];
      }
    }
  }

  /** The listing opens with its header. */
  lemma ListingStartsWithHeader(platforms: seq<Platform>)
    ensures |ListingHeader| <= |Listing(platforms)|
    ensures Listing(platforms)[..|ListingHeader|] == ListingHeader
  {
    var blocks := Blocks(platforms);
    var parts := [ListingHeader] + blocks;
    if |blocks| > 0 {
      assert parts[1..] == blocks;
      var tail := "\n" + Text.Join("\n", blocks);
      assert Text.Join("\n", parts) == ListingHeader + tail;
    } else {
      assert parts == [ListingHeader];
    }
  }

  /** The loop of get_all_platforms_for_ai over a list of platforms. */
  method ListPlatforms(platforms: seq<Platform>) returns (r: string)
    ensures r == Listing(platforms)
  {
    var formatted := [ListingHeader];
    for i := 0 to |platforms|
      invariant formatted == [ListingHeader] + Blocks(platforms[..i])
    {
      assert Blocks(platforms[..i + 1]) == Blocks(platforms[..i]) + [FormatPlatformInfo(platforms[i])];
      formatted := formatted + [FormatPlatformInfo(platforms[i])];
    }
    assert platforms[..|platforms|] == platforms;
    r := Text.Join("\n", formatted);
  }

  /** get_all_platforms_for_ai: the international platforms, then the
      crypto-friendly ones. */
  method GetAllPlatformsForAi() returns (r: string)
    ensures r == Listing(International + CryptoFriendly)
  {
    var allPlatforms := [];
    allPlatforms := allPlatforms + International;
    allPlatforms := allPlatforms + CryptoFriendly;
    assert allPlatforms == International + CryptoFriendly;
    r := ListPlatforms(allPlatforms);
  }

  /** BEGINNERS_GUIDE: the step-by-step guide handed to the assistant with
      the platform listing. */
  const BeginnersGuide: string :=
    "\n"
    + "# 🎯 Complete Beginner\'s Guide: How to Actually Invest\n"
    + "\n"
    + "## Step 1: Choose Your Platform (Where to Invest)\n"
    + "\n"
    + "Think of this like choosing which store to shop at. You need to pick a platform (also called a \"brokerage\" or \"broker\").\n"
    + "\n"
    + "**For Azerbaijan, we recommend:**\n"
    + "- **eToro** - Easiest for beginners (https://www.etoro.com)\n"
    + "- **Interactive Brokers** - Best if you want more options (https://www.interactivebrokers.com)\n"
    + "\n"
    + "## Step 2: Open an Account (Like Opening a Bank Account)\n"
    + "\n"
    + "This is just like opening a bank account, but for investments:\n"
    + "\n"
    + "1. **Go to the website** - Click the link above\n"
    + "2. **Click \"Open Account\" or \"Sign Up\"**\n"
    + "3. **Fill out a form** with:\n"
    + "   - Your name\n"
    + "   - Email address\n"
    + "   - Phone number\n"
    + "   - Home address\n"
    + "   - Date of birth\n"
    + "4. **Upload documents**:\n"
    + "   - Passport photo\n"
    + "   - A utility bill showing your address (electric, water, etc.)\n"
    + "5. **Wait for approval** - Usually 1-3 days\n"
    + "\n"
    + "## Step 3: Add Money to Your Account\n"
    + "\n"
    + "Now you need to put money in, just like depositing cash into your bank:\n"
    + "\n"
    + "1. **Log into your new account**\n"
    + "2. **Find \"Deposit\" button**\n"
    + "3. **Choose how to send money**:\n"
    + "   - Bank transfer (wire) - cheapest but slower\n"
    + "   - Credit/Debit card - fastest but small fee\n"
    + "   - E-wallet (if available)\n"
    + "4. **Enter amount in AZN**\n"
    + "5. **Confirm** - Money arrives in 1-5 days depending on method\n"
    + "\n"
    + "## Step 4: Search for Your Investment (The ETF)\n"
    + "\n"
    + "Remember when we recommended SPY or BND? Now you\'ll buy them:\n"
    + "\n"
    + "1. **Look for the search bar** (usually at the top)\n"
    + "2. **Type the letters**: \"SPY\" or \"BND\" or whatever was recommended\n"
    + "3. **Click on the result** - You\'ll see the current price\n"
    + "4. **You\'ll see information**:\n"
    + "   - Current price (e.g., $400)\n"
    + "   - A chart showing if it\'s going up or down\n"
    + "   - Description\n"
    + "\n"
    + "## Step 5: Buy Your Investment\n"
    + "\n"
    + "This is the exciting part - you\'re actually buying!\n"
    + "\n"
    + "1. **Click \"Buy\" or \"Trade\" button**\n"
    + "2. **Enter how much money** you want to invest:\n"
    + "   - Example: If SPY costs $400, and you have $800, you can buy 2 \"shares\"\n"
    + "   - Or enter money amount: \"$500\" and it calculates shares for you\n"
    + "3. **Review your order**:\n"
    + "   - Check: What you\'re buying (SPY)\n"
    + "   - Check: How much ($500)\n"
    + "   - Check: How many shares (1.25 shares)\n"
    + "4. **Click \"Confirm\" or \"Buy Now\"**\n"
    + "5. **DONE!** 🎉 You are now an investor!\n"
    + "\n"
    + "## Step 6: What Happens Next?\n"
    + "\n"
    + "**Immediately:**\n"
    + "- You\'ll see the investment in your account\n"
    + "- It shows how much you invested\n"
    + "- It shows current value (goes up and down daily - that\'s normal!)\n"
    + "\n"
    + "**Daily:**\n"
    + "- Check your account if you want (but don\'t need to!)\n"
    + "- You\'ll see the value change - sometimes up, sometimes down\n"
    + "- DON\'T PANIC if it goes down a little - investments go up and down\n"
    + "\n"
    + "**Monthly:**\n"
    + "- Some investments pay \"dividends\" (free money!)\n"
    + "- This appears in your account automatically\n"
    + "- You can use it to buy more or withdraw it\n"
    + "\n"
    + "**Long-term (Years):**\n"
    + "- Over years, your investment grows\n"
    + "- When you\'re ready, click \"Sell\" to turn it back into cash\n"
    + "- Transfer cash back to your bank account\n"
    + "- Use the money for your goal (house, retirement, etc.)\n"
    + "\n"
    + "## Important Reminders:\n"
    + "\n"
    + "✅ **Start small** - Your first investment can be as little as $50-100\n"
    + "✅ **Don\'t check daily** - Checking too often makes you nervous\n"
    + "✅ **Be patient** - Investments grow over YEARS, not days\n"
    + "✅ **Keep investing** - Add a little money each month\n"
    + "✅ **Don\'t panic sell** - If it drops, that\'s normal. Don\'t sell in fear.\n"
    + "\n"
    + "## Need Help?\n"
    + "\n"
    + "- Most platforms have 24/7 chat support\n"
    + "- You can also ask me (InvestBuddy) any questions!\n"
    + "- Take it slow - you don\'t need to rush\n"
    + "\n"
    + "**Remember: Every expert investor started exactly where you are now - knowing nothing! You\'ve got this! 💪**\n"

  const InteractiveBrokers: Platform := Platform(
    "Interactive Brokers",
    "https://www.interactivebrokers.com",
    "Azerbaijani investors who want access to US stocks and ETFs",
    [
      "Access to global markets (US, Europe, Asia)",
      "Low fees",
      "Professional platform",
      "Can invest in all major ETFs (SPY, VOO, BND, etc.)"
    ],
    [
      "Minimum deposit requirements",
      "Interface can be complex for beginners",
      "Need to understand currency conversion (AZN to USD)"
    ],
    "Interactive Brokers is like a global marketplace where you can buy pieces of American companies. It's one of the most popular platforms for investors outside the US.",
    [
      "1. Go to https://www.interactivebrokers.com",
      "2. Click 'Open Account'",
      "3. Choose 'Individual Account'",
      "4. Fill out personal information (name, address, passport)",
      "5. Answer questions about your financial experience",
      "6. Upload ID documents (passport, utility bill for address)",
      "7. Wait 1-3 days for approval",
      "8. Transfer money from your Azerbaijani bank (wire transfer)",
      "9. Money converts from AZN to USD automatically",
      "10. Start buying ETFs!"
    ])

  const Etoro: Platform := Platform(
    "eToro",
    "https://www.etoro.com",
    "Complete beginners who want a simple, user-friendly interface",
    [
      "Very beginner-friendly",
      "Copy other successful investors automatically",
      "Social features - see what others are buying",
      "No minimum deposit",
      "Simple mobile app"
    ],
    [
      "Higher fees than some competitors",
      "Limited ETF selection compared to Interactive Brokers",
      "Withdrawal fees"
    ],
    "eToro is like the 'Instagram of investing' - it's simple, visual, and you can even copy what experienced investors are doing.",
    [
      "1. Go to https://www.etoro.com",
      "2. Click 'Join Now'",
      "3. Enter email and create password",
      "4. Fill out a short questionnaire",
      "5. Verify your email",
      "6. Upload ID (passport photo)",
      "7. Deposit money (credit card, bank transfer, or e-wallet)",
      "8. Search for ETFs like 'SPY' or 'VOO'",
      "9. Click 'Trade' and enter amount",
      "10. Click 'Open Trade' - you're done!"
    ])

  const SaxoBank: Platform := Platform(
    "Saxo Bank",
    "https://www.home.saxo",
    "Investors who want a premium platform with education",
    [
      "Excellent educational resources",
      "Wide range of investment products",
      "Good customer support",
      "Research tools and market analysis"
    ],
    [
      "Higher minimum deposit",
      "More expensive fees",
      "Might be overkill for simple ETF investing"
    ],
    "Saxo Bank is like a premium investment platform - more expensive but comes with lots of helpful tools and education.",
    [
      "1. Visit https://www.home.saxo",
      "2. Click 'Open Account'",
      "3. Choose account type (Classic for beginners)",
      "4. Complete online application",
      "5. Provide identification documents",
      "6. Fund your account (bank transfer)",
      "7. Access trading platform",
      "8. Search for your chosen ETF",
      "9. Place your order",
      "10. Confirm purchase"
    ])

  const Binance: Platform := Platform(
    "Binance",
    "https://www.binance.com",
    "If you want to invest in both crypto and traditional stocks",
    [
      "Very popular in Azerbaijan",
      "Can invest in crypto AND tokenized stocks",
      "Low fees",
      "Easy AZN deposits via local methods"
    ],
    [
      "Primarily a crypto platform",
      "Traditional stock selection limited",
      "Regulatory concerns in some countries"
    ],
    "Binance started as a crypto platform but now offers some traditional investments too. Good if you want both.",
    [
      "1. Go to https://www.binance.com",
      "2. Click 'Register'",
      "3. Enter email and password",
      "4. Verify email and phone number",
      "5. Complete identity verification (KYC)",
      "6. Deposit money (various local payment methods)",
      "7. Search for stocks or crypto",
      "8. Click 'Buy' and enter amount",
      "9. Confirm transaction",
      "10. You now own the investment!"
    ])
}
