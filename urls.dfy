/**
 * The parts of a Go net/url URL that the core reads. Parsing (url.Parse)
 * is a foreign library and is not modelled; a URL arrives already split.
 */
module Urls {

  /**
   * `user` is url.User.Username(), the empty string when the URL has no user;
   * `host` is url.Host, which keeps the port when the URL gives one.
   */
  datatype Url = Url(scheme: string, user: string, host: string, path: string)
}
