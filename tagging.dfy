/**
 * The four `key:value` tags attached to every gauge a plugin yields
 * (main.go:71-76), and the reading of a tag back into its key and value.
 */
module Tagging {
  import opened Wrappers
  import opened Stats

  /** The tag keys, in the order the tags are attached. */
  const TagKeys: seq<string> := ["nodename", "kube_cluster", "plugin_id", "plugin_type"]

  /** The tag values for plugin `p` under configuration `c`, in the order of `TagKeys`. */
  function TagValues(c: Config, p: PluginStat): (vs: seq<string>)
    ensures |vs| == |TagKeys|
  {
    [c.hostname, c.clusterName, p.pluginId, p.pluginType]
  }

  /** The tags for plugin `p`: each key, a colon, and its value copied verbatim. */
  function Tags(c: Config, p: PluginStat): (tags: seq<string>)
    ensures |tags| == 4
  {
    ["nodename:" + c.hostname,
     "kube_cluster:" + c.clusterName,
     "plugin_id:" + p.pluginId,
     "plugin_type:" + p.pluginType]
  }

  /**
   * A reference parser for `key:value` tags: splits a tag at its first colon
   * into key and value; a tag with no colon has no key. It is used to state
   * what the tags contain.
   */
  function SplitTag(tag: string): (r: Option<(string, string)>)
    ensures r.None? <==> ':' !in tag
    ensures r.Some? ==> ':' !in r.value.0 && tag == r.value.0 + ":" + r.value.1
  {
    if tag == [] then None
    else if tag[0] == ':' then Some(([], tag[1..]))
    else match SplitTag(tag[1..])
      case None => None
      case Some((key, value)) => Some(([tag[0]] + key, value))
  }

  /** A key without a colon joined to any value splits back into that key and that value. */
  lemma {:induction false} SplitJoin(key: string, value: string)
    requires ':' !in key
    ensures SplitTag(key + ":" + value) == Some((key, value))
  {
    var tag := key + ":" + value;
    if key == [] {
      assert tag[0] == ':' && tag[1..] == value;
    } else {
      assert tag[0] == key[0] != ':';
      assert tag[1..] == key[1..] + ":" + value;
      SplitJoin(key[1..], value);
      assert [key[0]] + key[1..] == key;
    }
  }

  /**
   * Every tag of a plugin reads back as the expected key with the
   * configuration or plugin field as its value, whatever characters the
   * value holds (an empty value, or one with colons, included).
   */
  lemma TagsReadBack(c: Config, p: PluginStat)
    ensures forall i :: 0 <= i < 4 ==>
      SplitTag(Tags(c, p)[i]) == Some((TagKeys[i], TagValues(c, p)[i]))
  {
    var tags, values := Tags(c, p), TagValues(c, p);
    forall i | 0 <= i < 4
      ensures SplitTag(tags[i]) == Some((TagKeys[i], values[i]))
    {
      assert ':' !in TagKeys[i];
      assert tags[i] == TagKeys[i] + ":" + values[i];
      SplitJoin(TagKeys[i], values[i]);
    }
  }
}
