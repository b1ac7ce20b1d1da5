/** The MDX `pre` element override: the chrome around a fenced code block
    (title bar, language badge, copy button) and the props of the inner
    `<pre>` element. */
module Pre {
  import opened Wrappers

  /** Inline style object, property name to value. */
  type Style = map<string, string>

  /** The props of a `pre` element. Each named prop is `None` when it is
      `undefined`; `dataCode` is `props["data-code"]`. `others` stands for
      every other prop (including the children), which this component never
      inspects. */
  datatype PreProps<O> = PreProps(
    lang: Option<string>,
    title: Option<string>,
    dataCode: Option<string>,
    className: Option<string>,
    style: Option<Style>,
    others: O)

  /** The title bar: the title span on the left, and the language badge on
      the right when there is one. */
  datatype TitleBar = TitleBar(titleText: string, badge: Option<string>)

  /** What `MDXPre` renders, as a descriptor: the optional title bar, the
      value given to `CopyButton` as `code`, and the props of the `<pre>`. */
  datatype Chrome<O> = Chrome(titleBar: Option<TitleBar>, copyCode: Option<string>, preProps: PreProps<O>)

  /** JavaScript truthiness of a string-valued prop: defined and non-empty. */
  predicate Truthy(v: Option<string>) {
    v.Some? && v.value != ""
  }

  predicate ShowsTitleBar<O>(c: Chrome<O>) {
    c.titleBar.Some?
  }

  predicate ShowsBadge<O>(c: Chrome<O>) {
    c.titleBar.Some? && c.titleBar.value.badge.Some?
  }

  /** `MDXPre`, with `clsx` passed in as `clsx` since its code is not part of
      this model. */
  function MdxPre<O>(p: PreProps<O>, clsx: Option<string> -> string): (r: Chrome<O>)
    // the title bar is shown iff `lang` or `title` is truthy
    ensures ShowsTitleBar(r) <==> Truthy(p.lang) || Truthy(p.title)
    // the badge is shown iff `lang` is truthy, and then shows `lang`
    ensures ShowsBadge(r) <==> Truthy(p.lang)
    ensures ShowsBadge(r) ==> r.titleBar.value.badge == p.lang
    // the title span shows `title`, empty when it is undefined
    ensures ShowsTitleBar(r) ==> r.titleBar.value.titleText == p.title.GetOr("")
    // the copy button always gets `data-code` verbatim
    ensures r.copyCode == p.dataCode
    // the `<pre>` gets every prop, except a normalised class name and an empty style
    ensures r.preProps.lang == p.lang && r.preProps.title == p.title
    ensures r.preProps.dataCode == p.dataCode && r.preProps.others == p.others
    ensures r.preProps.className == Some(clsx(p.className))
    ensures r.preProps.style == Some(map[])
  {
    var code := p.dataCode;
    var title := p.title;
    var prepProps := p.(className := Some(clsx(p.className)), style := Some(map[]));
    var bar :=
      if Truthy(p.lang) || Truthy(p.title) then
        Some(TitleBar(title.GetOr(""), if Truthy(p.lang) then p.lang else None))
      else
        None;
    Chrome(bar, code, prepProps)
  }

  /** The badge lives inside the title bar: a badge implies a title bar. */
  lemma BadgeImpliesTitleBar<O>(p: PreProps<O>, clsx: Option<string> -> string)
    ensures ShowsBadge(MdxPre(p, clsx)) ==> ShowsTitleBar(MdxPre(p, clsx))
  {
  }

  /** A language without a title gives a title bar whose title span is empty. */
  lemma LangWithoutTitle<O>(p: PreProps<O>, clsx: Option<string> -> string)
    requires Truthy(p.lang) && !Truthy(p.title)
    ensures ShowsTitleBar(MdxPre(p, clsx)) && ShowsBadge(MdxPre(p, clsx))
    ensures MdxPre(p, clsx).titleBar.value.titleText == p.title.GetOr("")
    ensures p.title.GetOr("") == ""
  {
  }

  /** A title without a language gives a title bar with no badge. */
  lemma TitleWithoutLang<O>(p: PreProps<O>, clsx: Option<string> -> string)
    requires Truthy(p.title) && !Truthy(p.lang)
    ensures MdxPre(p, clsx).titleBar == Some(TitleBar(p.title.value, None))
  {
  }

  /** An empty `lang` and an empty `title` count as absent: no title bar. */
  lemma EmptyLangAndTitle<O>(p: PreProps<O>, clsx: Option<string> -> string)
    requires p.lang == None || p.lang == Some("")
    requires p.title == None || p.title == Some("")
    ensures !ShowsTitleBar(MdxPre(p, clsx)) && !ShowsBadge(MdxPre(p, clsx))
  {
  }

  /** What the copy button receives depends on `data-code` alone: not on the
      language, the title, the class name, the style or the other props. */
  lemma CopyTextIndependent<O>(p: PreProps<O>, q: PreProps<O>, clsx: Option<string> -> string)
    requires p.dataCode == q.dataCode
    ensures MdxPre(p, clsx).copyCode == MdxPre(q, clsx).copyCode == p.dataCode
  {
  }

  /** The caller's style never reaches the `<pre>`: two prop sets that differ
      only in their style give the same `<pre>` props. */
  lemma StyleDiscarded<O>(p: PreProps<O>, s: Option<Style>, clsx: Option<string> -> string)
    ensures MdxPre(p.(style := s), clsx).preProps == MdxPre(p, clsx).preProps
  {
  }
}
