/** `backupDatabase`: the `mysqldump` command line for one database of one
    connection, and the record of one attempted dump. */
module Dump {
  import opened JsValues
  import opened Normalize

  /** One attempted dump: the host, the database as written in the command,
      and the command itself. */
  datatype Attempt = Attempt(host: string, database: string, command: string)

  /** The file the command's output is redirected to. The separator is a
      literal backslash, whatever the platform. */
  function OutputFile(dirBkp: string, database: string): string {
    dirBkp + "\\" + database + ".sql"
  }

  /** The command string of `backupDatabase`. */
  function Command(host: string, user: string, password: string, database: string, dirBkp: string): string {
    "mysqldump -h " + host + " -u " + user + " -p" + password
      + " --skip-column-statistics " + database + " > \"" + OutputFile(dirBkp, database) + "\""
  }

  /** The dump of `database` for connection `t` into `dirBkp`. */
  function DumpAttempt(t: Target, database: Value, dirBkp: string): Attempt
    requires t.host.Str?
  {
    Attempt(t.host.s, ToText(database),
            Command(t.host.s, ToText(t.user), ToText(t.password), ToText(database), dirBkp))
  }

  /** The command starts with the program and its connection options, and
      ends with the redirection to `<dirBkp>\<database>.sql`. */
  lemma CommandShape(host: string, user: string, password: string, database: string, dirBkp: string)
    ensures var cmd := Command(host, user, password, database, dirBkp);
      var head := "mysqldump -h " + host + " -u " + user + " -p" + password + " --skip-column-statistics ";
      var tail := " > \"" + dirBkp + "\\" + database + ".sql\"";
      && cmd == head + database + tail
      && cmd[..|head|] == head
      && cmd[|head|..|head| + |database|] == database
      && cmd[|cmd| - |tail|..] == tail
  {
    var head := "mysqldump -h " + host + " -u " + user + " -p" + password + " --skip-column-statistics ";
    var tail := " > \"" + dirBkp + "\\" + database + ".sql\"";
    var cmd := Command(host, user, password, database, dirBkp);
    assert cmd == head + database + tail;
    assert (head + database + tail)[..|head|] == head;
    assert (head + database + tail)[|head|..|head| + |database|] == database;
  }

  /** Two different database names of one connection give different command
      strings and different output path strings. */
  lemma CommandDistinct(host: string, user: string, password: string, d1: string, d2: string, dirBkp: string)
    requires d1 != d2
    ensures Command(host, user, password, d1, dirBkp) != Command(host, user, password, d2, dirBkp)
    ensures OutputFile(dirBkp, d1) != OutputFile(dirBkp, d2)
  {
    CommandShape(host, user, password, d1, dirBkp);
    CommandShape(host, user, password, d2, dirBkp);
    var f1, f2 := OutputFile(dirBkp, d1), OutputFile(dirBkp, d2);
    assert f1[|dirBkp| + 1..|dirBkp| + 1 + |d1|] == d1;
    assert f2[|dirBkp| + 1..|dirBkp| + 1 + |d2|] == d2;
  }
}
