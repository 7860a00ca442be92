/** The foreign libraries the extraction engine calls, as uninterpreted
    functions. Each lookup returns None both when nothing matches and when the
    library call raises: the source catches every such exception and moves on. */
module Oracles {
  import opened Wrappers

  /** A fetched page: the BeautifulSoup tree of its markup, plus the live
      browser element lookup when the page was rendered by Selenium. */
  datatype Page = Page(
    // soup.select_one(sel).get_text(strip=True); None when no element matches
    select: string -> Option<string>,
    // driver.find_element(By.XPATH, xp).text, before stripping
    xpath: string -> Option<string>,
    // soup.get_text("\n", strip=False): the whole visible text
    text: string,
    // soup.select_one(sel).get(attribute)
    attr: (string, string) -> Option<string>)

  /** Python's `re` module and `float()`. */
  datatype Engine = Engine(
    // re.search(pattern, text, re.IGNORECASE | re.DOTALL).group(1)
    search: (string, string) -> Option<string>,
    // re.sub(pattern, replacement, value)
    sub: (string, string, string) -> Option<string>,
    // float(s); None when it raises
    toFloat: string -> Option<real>)
}
