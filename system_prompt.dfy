/** The agent's system prompt (extension/lib/agent/systemPrompt.ts): a fixed
    text, followed by a section naming the current page when one is known. */
module SystemPrompt {
  import opened Wrappers
  import opened Text

  datatype PageContext = PageContext(url: string, title: string)

  const BasePrompt: string :=
    "You are ocbot, an AI browser assistant that helps users complete tasks by controlling the browser.\n"
    + "\n"
    + "You have access to browser tools to navigate, click, type, scroll, and read page content. Use these tools to accomplish the user's goals.\n"
    + "\n"
    + "## Guidelines\n"
    + "- Break complex tasks into small steps\n"
    + "- After navigating, use getText or getElements to understand the page\n"
    + "- Use specific CSS selectors — prefer IDs, then unique attributes, then tag + class combinations\n"
    + "- If a click or type fails, try getElements to find the correct selector\n"
    + "- Always verify actions succeeded by checking the page state\n"
    + "- Be concise in your responses — focus on actions and results\n"
    + "\n"
    + "## Tool Usage\n"
    + "- navigate: Go to a URL. Always include the protocol or domain.\n"
    + "- click: Click an element. Use precise CSS selectors.\n"
    + "- type: Type into inputs. Set pressEnter to \"true\" to submit.\n"
    + "- scroll: Scroll up or down to see more content.\n"
    + "- getText: Get the current page URL, title, and visible text.\n"
    + "- getElements: Query elements to find selectors, inspect structure.\n"
    + "- waitForNavigation: Wait for page load after actions that trigger navigation."

  const SectionHead: string := "\n\n## Current Page\n- URL: "
  const TitleHead: string := "\n- Title: "

  /** `buildSystemPrompt`: the base prompt, and when a page is given, a
      `## Current Page` section with its URL line and then its title line. */
  function BuildSystemPrompt(page: Option<PageContext>): string {
    if page.None? then BasePrompt
    else BasePrompt + (SectionHead + page.value.url + TitleHead + page.value.title)
  }

  /** The base prompt always comes first; with no page it is the whole
      prompt, and otherwise the page section follows it, ending with the
      title line. */
  lemma PromptShape(page: Option<PageContext>)
    ensures var r := BuildSystemPrompt(page);
            BasePrompt <= r
            && (page.None? ==> r == BasePrompt)
            && (page.Some? ==> |r| > |BasePrompt|)
            && (page.Some? ==> r[|BasePrompt|..] == SectionHead + page.value.url + TitleHead + page.value.title)
            && (page.Some? ==> EndsWith(r, TitleHead + page.value.title))
  {
    if page.Some? {
      AppendParts(BasePrompt, SectionHead + page.value.url, TitleHead, page.value.title);
    }
  }

  /** What appending `m + h + t` to a text `p` keeps and adds. */
  lemma AppendParts(p: string, m: string, h: string, t: string)
    requires h != []
    ensures var r := p + (m + h + t);
            p <= r && |r| > |p| && r[|p|..] == m + h + t && EndsWith(r, h + t)
  {
    var r := p + (m + h + t);
    assert r == (p + m) + (h + t);
    assert r[|r| - |h + t|..] == h + t;
  }

  /** The page can be read back from the prompt as long as its URL is a
      single line: two pages give the same prompt only if they are equal. */
  lemma PromptDeterminesPage(a: PageContext, b: PageContext)
    requires '\n' !in a.url && '\n' !in b.url
    requires BuildSystemPrompt(Some(a)) == BuildSystemPrompt(Some(b))
    ensures a == b
  {
    var ta := SectionHead + a.url + TitleHead + a.title;
    var tb := SectionHead + b.url + TitleHead + b.title;
    assert BuildSystemPrompt(Some(a)) == BasePrompt + ta;
    assert BuildSystemPrompt(Some(b)) == BasePrompt + tb;
    CancelPrefix(BasePrompt, ta, tb);
    SectionDeterminesPage(a, b);
  }

  lemma CancelPrefix(p: string, x: string, y: string)
    requires p + x == p + y
    ensures x == y
  {
    assert x == (p + x)[|p|..];
    assert y == (p + y)[|p|..];
  }

  lemma SectionDeterminesPage(a: PageContext, b: PageContext)
    requires '\n' !in a.url && '\n' !in b.url
    requires SectionHead + a.url + TitleHead + a.title == SectionHead + b.url + TitleHead + b.title
    ensures a == b
  {
    var whole := SectionHead + a.url + TitleHead + a.title;
    var ta := a.url + (TitleHead + a.title);
    var tb := b.url + (TitleHead + b.title);
    assert whole[|SectionHead|..] == ta;
    assert (SectionHead + b.url + TitleHead + b.title)[|SectionHead|..] == tb;
    assert ta == tb;
    FirstNewline(a.url, TitleHead + a.title);
    FirstNewline(b.url, TitleHead + b.title);
    assert a.url == ta[..|a.url|] && b.url == tb[..|b.url|];
    assert a.title == ta[|a.url| + |TitleHead|..];
  }

  /** In `u + t` with `u` a single line and `t` starting a new line, the first
      newline sits right after `u`. */
  lemma FirstNewline(u: string, t: string)
    requires '\n' !in u && t != [] && t[0] == '\n'
    ensures IndexOf(u + t, "\n") == Some(|u|)
  {
    assert OccursAt(u + t, "\n", |u|);
    forall j | 0 <= j < |u| ensures !OccursAt(u + t, "\n", j) {
      assert (u + t)[j] == u[j];
    }
  }
}
